/** Records and enumerations of the user and video schemas. */
module Schemas {
  import opened Wrappers

  /** Wall-clock instants are opaque; only their equality matters to the model. */
  type Timestamp = int

  predicate IsHexDigit(c: char)
  {
    ('0' <= c <= '9') || ('a' <= c <= 'f') || ('A' <= c <= 'F')
  }

  predicate IsLowerHexDigit(c: char)
  {
    ('0' <= c <= '9') || ('a' <= c <= 'f')
  }

  /** The textual form of a document id: 24 lower-case hexadecimal digits. */
  predicate IsCanonicalObjectId(s: string)
  {
    |s| == 24 && forall i :: 0 <= i < |s| ==> IsLowerHexDigit(s[i])
  }

  /** A document id, identified with its canonical string form `str(ObjectId)`. */
  type ObjectId = s: string | IsCanonicalObjectId(s) witness "000000000000000000000000"

  datatype Role = UserRole | AdminRole

  /** The string value behind each member of the string-valued Role enumeration. */
  function RoleName(r: Role): string
  {
    match r
    case UserRole => "user"
    case AdminRole => "admin"
  }

  datatype SignInType = GoogleSignIn | Normal | FacebookSignIn

  datatype UserStatus = Enabled | Disabled

  /** Registration input. */
  datatype UserIn = UserIn(username: string, email: string, password: string)

  /** A stored user; `password` holds the bcrypt digest, never the plaintext. */
  datatype User = User(
    id: ObjectId,
    username: string,
    email: string,
    password: string,
    role: Role,
    status: UserStatus,
    signInType: SignInType,
    verified: bool,
    dateCreated: Timestamp,
    dateModified: Timestamp)

  /** A stored video. Its duration is kept as a real number; nothing computes with it. */
  datatype Video = Video(
    id: string,
    userId: string,
    title: string,
    description: Option<string>,
    tags: seq<string>,
    available: bool,
    durationInSec: real,
    dateCreated: Timestamp,
    dateModified: Timestamp)
}
