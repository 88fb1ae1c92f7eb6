/** The server's profile endpoints (backend/controllers/userController.js).

    `req.user` is the requester's user document, loaded by the
    authentication middleware; it is passed in as a possibly-null
    `UserDocument`. Whether the store accepts `save` is a parameter. */
module UserController {
  import opened Basics
  import Text

  const UserNotFound := HttpError(404, "User not found")
  const UpdateFailed := HttpError(500, "Server error updating profile")

  /** The fields of a user document: `name`, `email`, and every other field
      (id, password hash, timestamps) by name. */
  datatype UserRecord = UserRecord(name: string, email: string, otherFields: map<string, string>)

  /** The fields of a profile update request; `None` is a field that is
      absent or null. */
  datatype ProfileBody = ProfileBody(name: Option<string>, email: Option<string>)

  /** The `{name, email}` pair an update answers with. */
  datatype ProfileReply = ProfileReply(name: string, email: string)

  /** JavaScript truthiness of a string field: present and non-empty. */
  predicate Truthy(v: Option<string>): (r: bool)
    ensures v.None? ==> !r
    ensures v == Some("") ==> !r
    ensures v.Some? && v.value != "" ==> r
  {
    v.Some? && v.value != ""
  }

  /** One field after `if (value) field = value`. */
  function MergeField(current: string, requested: Option<string>): (r: string)
    ensures Truthy(requested) ==> r == requested.value
    ensures !Truthy(requested) ==> r == current
    ensures r == current || r == requested.value
  {
    if Truthy(requested) then requested.value else current
  }

  /** The user record after an update request has been applied. */
  function ApplyUpdate(u: UserRecord, body: ProfileBody): (r: UserRecord)
    ensures r.name == MergeField(u.name, body.name)
    ensures r.email == MergeField(u.email, body.email)
    ensures r.otherFields == u.otherFields
  {
    u.(name := MergeField(u.name, body.name), email := MergeField(u.email, body.email))
  }

  /** Applying the same update twice gives the user applying it once gives. */
  lemma UpdateIdempotent(u: UserRecord, body: ProfileBody)
    ensures ApplyUpdate(ApplyUpdate(u, body), body) == ApplyUpdate(u, body)
  {
  }

  /** An update never clears a field: a non-empty name or email stays
      non-empty. */
  lemma UpdateNeverClears(u: UserRecord, body: ProfileBody)
    ensures u.name != "" ==> ApplyUpdate(u, body).name != ""
    ensures u.email != "" ==> ApplyUpdate(u, body).email != ""
  {
  }

  /** A non-empty whitespace-only name is truthy, so it does overwrite:
      the server performs no trimming, and stores a name the dashboard
      would refuse as blank. */
  lemma BlankFieldOverwrites(u: UserRecord, name: string, email: Option<string>)
    requires name != "" && Text.IsBlank(name)
    ensures ApplyUpdate(u, ProfileBody(Some(name), email)).name == name
  {
  }

  /** A user document of the store, updated in place. */
  class UserDocument {
    var name: string
    var email: string
    var otherFields: map<string, string>

    constructor (r: UserRecord)
      ensures Record() == r
    {
      name, email, otherFields := r.name, r.email, r.otherFields;
    }

    function Record(): UserRecord
      reads this
    {
      UserRecord(name, email, otherFields)
    }
  }

  /** GET /users/profile: the requester's own document, as it is (JSON
      `null` when there is none). */
  method GetProfile(user: UserDocument?) returns (body: Option<UserRecord>)
    ensures user == null ==> body == None
    ensures user != null ==> body == Some(user.Record())
  {
    if user == null {
      body := None;
    } else {
      body := Some(user.Record());
    }
  }

  /** PUT /users/profile: 404 without a user; otherwise overwrite `name` and
      `email` with the truthy request fields, save, and answer with the new
      pair, or with 500 when the save fails. The fields are assigned before
      the save, so a failed save still leaves them assigned on the
      in-memory document. */
  method UpdateProfile(user: UserDocument?, body: ProfileBody, saved: bool) returns (r: Result<ProfileReply, HttpError>)
    modifies user
    ensures user == null ==> r == Failure(UserNotFound)
    ensures user != null ==> user.Record() == ApplyUpdate(old(user.Record()), body)
    ensures user != null && saved ==> r == Success(ProfileReply(user.name, user.email))
    ensures user != null && !saved ==> r == Failure(UpdateFailed)
  {
    if user == null {
      return Failure(UserNotFound);
    }
    if Truthy(body.name) {
      user.name := body.name.value;
    }
    if Truthy(body.email) {
      user.email := body.email.value;
    }
    if !saved {
      return Failure(UpdateFailed);
    }
    r := Success(ProfileReply(user.name, user.email));
  }
}
