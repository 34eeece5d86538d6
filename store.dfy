/**
 * The `data` object the handlers of server/server.js read and write: a list
 * of users and a list of prediction records. Reading and writing the JSON
 * file, password hashing, token signing and Google token verification are
 * outside the model; their results (a hash, a verified payload, a fresh id,
 * the current time) arrive as parameters.
 */
module Store {
  import opened Wrappers
  import opened StableSort
  import opened Scoring
  import opened Ranking

  /** A value stored under one profile key. */
  datatype Value = Str(s: string) | Num(n: real) | Strs(items: seq<string>)

  /** A user's `profile` object, key by key. */
  type Profile = map<string, Value>

  /** The profile every new user starts with. */
  const DefaultProfile: Profile := map[
    "degree" := Str(""), "field" := Str(""), "gpa" := Num(0.0), "experience" := Num(0.0), "skills" := Strs([])]

  datatype User = User(
    id: string,
    email: string,
    name: string,
    password: Option<string>,   // the bcrypt hash; `null` for Google accounts
    picture: Option<string>,
    profile: Profile,
    createdAt: int)

  /** One stored prediction; `createdAt` is the creation time in milliseconds. */
  datatype Record = Record(id: string, userId: string, education: Education, prediction: Prediction, createdAt: int)

  /** A request field is present in the JavaScript sense: neither missing nor "". */
  predicate Truthy(field: Option<string>) {
    field.Some? && field.value != ""
  }

  /** `users.find(u => u.email === email) !== undefined` */
  predicate EmailTaken(users: seq<User>, email: string) {
    exists i | 0 <= i < |users| :: users[i].email == email
  }

  /** No two users share an email. */
  ghost predicate UniqueEmails(users: seq<User>) {
    forall i, j :: 0 <= i < j < |users| ==> users[i].email != users[j].email
  }

  /** `users.findIndex(u => u.id === id)`, with `None` for -1. */
  function FindIndex(users: seq<User>, id: string): (i: Option<nat>)
    ensures i.Some? ==> i.value < |users| && users[i.value].id == id
    ensures i.Some? ==> forall j :: 0 <= j < i.value ==> users[j].id != id
    ensures i.None? ==> forall j :: 0 <= j < |users| ==> users[j].id != id
  {
    if |users| == 0 then None
    else if users[0].id == id then Some(0)
    else match FindIndex(users[1..], id)
      case None => None
      case Some(k) => Some(k + 1)
  }

  /** `{ ...profile, ...patch }`: every key of either, the patch's value winning. */
  function Merge(profile: Profile, patch: Profile): (merged: Profile)
    ensures merged.Keys == profile.Keys + patch.Keys
    ensures forall k :: k in patch ==> merged[k] == patch[k]
    ensures forall k :: k in profile && k !in patch ==> merged[k] == profile[k]
  {
    profile + patch
  }

  /** Applying the same patch twice changes nothing more. */
  lemma MergeIdempotent(profile: Profile, patch: Profile)
    ensures Merge(Merge(profile, patch), patch) == Merge(profile, patch)
  {
    var once := Merge(profile, patch);
    assert Merge(once, patch).Keys == once.Keys;
    forall k | k in once
      ensures Merge(once, patch)[k] == once[k]
    {
    }
  }

  /** The records of one owner, in stored order. */
  function OwnedBy(records: seq<Record>, userId: string): (owned: seq<Record>)
    ensures |owned| <= |records|
    ensures forall i :: 0 <= i < |owned| ==> owned[i].userId == userId && owned[i] in records
    ensures forall i :: 0 <= i < |records| && records[i].userId == userId ==> records[i] in owned
  {
    if |records| == 0 then []
    else
      var rest := OwnedBy(records[..|records| - 1], userId);
      var last := records[|records| - 1];
      assert forall i :: 0 <= i < |records| - 1 ==> records[i] == records[..|records| - 1][i];
      if last.userId == userId then rest + [last] else rest
  }

  function CreatedAt(r: Record): int { r.createdAt }

  /** `GET /api/predictions`: the owner's records, newest first. */
  function HistoryOf(records: seq<Record>, userId: string): (history: seq<Record>)
    ensures SortedDesc(history, CreatedAt)
    ensures multiset(history) == multiset(OwnedBy(records, userId))
  {
    SortDesc(OwnedBy(records, userId), CreatedAt)
  }

  /**
   * The history holds exactly the owner's records, newest first; records
   * created at the same instant keep their stored order.
   */
  lemma HistoryExact(records: seq<Record>, userId: string)
    ensures forall r :: r in HistoryOf(records, userId) <==> r in records && r.userId == userId
    ensures forall t :: WithKey(HistoryOf(records, userId), CreatedAt, t) == WithKey(OwnedBy(records, userId), CreatedAt, t)
  {
    var owned := OwnedBy(records, userId);
    var history := HistoryOf(records, userId);
    forall r
      ensures r in history <==> r in records && r.userId == userId
    {
      assert r in history <==> r in multiset(owned);
      if r in records && r.userId == userId {
        var i :| 0 <= i < |records| && records[i] == r;
      }
      if r in owned {
        var i :| 0 <= i < |owned| && owned[i] == r;
      }
    }
    forall t
      ensures WithKey(history, CreatedAt, t) == WithKey(owned, CreatedAt, t)
    {
      SortIsStable(owned, CreatedAt, t);
    }
  }

  /** A new record joins its owner's records last and leaves everyone else's alone. */
  lemma {:induction false} OwnedByAppend(records: seq<Record>, rec: Record, userId: string)
    ensures OwnedBy(records + [rec], userId)
         == if rec.userId == userId then OwnedBy(records, userId) + [rec] else OwnedBy(records, userId)
  {
    assert (records + [rec])[..|records|] == records;
  }

  /** After a predict, the record shows in its owner's history and no other history changes. */
  lemma HistoryAfterPredict(records: seq<Record>, rec: Record, userId: string)
    ensures rec in HistoryOf(records + [rec], rec.userId)
    ensures userId != rec.userId ==> HistoryOf(records + [rec], userId) == HistoryOf(records, userId)
  {
    OwnedByAppend(records, rec, userId);
    HistoryExact(records + [rec], rec.userId);
  }

  /** The users and prediction records of the running server. */
  class Data {
    var users: seq<User>
    var predictions: seq<Record>

    ghost predicate Valid()
      reads this
    {
      UniqueEmails(users)
    }

    /** The contents of a fresh data file: `{ users: [], predictions: [] }`. */
    constructor ()
      ensures Valid() && users == [] && predictions == []
    {
      users := [];
      predictions := [];
    }

    /**
     * `POST /api/auth/register`: rejects a missing field, then an email
     * already in use; otherwise appends a user with the default profile.
     */
    method Register(email: Option<string>, password: Option<string>, name: Option<string>,
                    id: string, passwordHash: string, now: int)
      returns (result: Result<User, string>)
      requires Valid()
      modifies this
      ensures Valid()
      ensures predictions == old(predictions)
      ensures !(Truthy(email) && Truthy(password) && Truthy(name)) ==>
        result == Err("Email, password, and name are required") && users == old(users)
      ensures Truthy(email) && Truthy(password) && Truthy(name) && EmailTaken(old(users), email.value) ==>
        result == Err("User already exists") && users == old(users)
      ensures Truthy(email) && Truthy(password) && Truthy(name) && !EmailTaken(old(users), email.value) ==>
        result == Ok(User(id, email.value, name.value, Some(passwordHash), None, DefaultProfile, now))
        && users == old(users) + [result.value]
    {
      if !(Truthy(email) && Truthy(password) && Truthy(name)) {
        return Err("Email, password, and name are required");
      }
      if EmailTaken(users, email.value) {
        return Err("User already exists");
      }
      var user := User(id, email.value, name.value, Some(passwordHash), None, DefaultProfile, now);
      users := users + [user];
      result := Ok(user);
    }

    /**
     * `POST /api/auth/google`: `payload` is what token verification returned,
     * `None` when it threw. A known email logs in the existing user; an
     * unknown one is appended as a new password-less user.
     */
    method GoogleLogin(googleToken: Option<string>, configured: bool, payload: Option<(string, string, string)>,
                       id: string, now: int)
      returns (result: Result<User, string>)
      requires Valid()
      modifies this
      ensures Valid()
      ensures predictions == old(predictions)
      ensures !Truthy(googleToken) ==> result == Err("Google token is required") && users == old(users)
      ensures Truthy(googleToken) && !configured ==> result == Err("Google OAuth not configured") && users == old(users)
      ensures Truthy(googleToken) && configured && payload.None? ==>
        result == Err("Invalid Google token") && users == old(users)
      ensures Truthy(googleToken) && configured && payload.Some? && EmailTaken(old(users), payload.value.0) ==>
        users == old(users) && result.Ok? && result.value in users && result.value.email == payload.value.0
      ensures Truthy(googleToken) && configured && payload.Some? && !EmailTaken(old(users), payload.value.0) ==>
        result == Ok(User(id, payload.value.0, payload.value.1, None, Some(payload.value.2), DefaultProfile, now))
        && users == old(users) + [result.value]
    {
      if !Truthy(googleToken) {
        return Err("Google token is required");
      }
      if !configured {
        return Err("Google OAuth not configured");
      }
      if payload.None? {
        return Err("Invalid Google token");
      }
      var (email, name, picture) := payload.value;
      var i := 0;
      while i < |users|
        invariant 0 <= i <= |users|
        invariant forall j :: 0 <= j < i ==> users[j].email != email
      {
        if users[i].email == email {
          return Ok(users[i]);
        }
        i := i + 1;
      }
      var user := User(id, email, name, None, Some(picture), DefaultProfile, now);
      users := users + [user];
      result := Ok(user);
    }

    /**
     * `PUT /api/auth/profile`: merges the patch into the profile of the first
     * user with the caller's id; that user, and nothing else, changes.
     */
    method UpdateProfile(userId: string, patch: Profile) returns (result: Result<User, string>)
      requires Valid()
      modifies this
      ensures Valid()
      ensures predictions == old(predictions)
      ensures FindIndex(old(users), userId).None? ==> result == Err("User not found") && users == old(users)
      ensures FindIndex(old(users), userId).Some? ==>
        var k := FindIndex(old(users), userId).value;
        result == Ok(old(users)[k].(profile := Merge(old(users)[k].profile, patch)))
        && users == old(users)[k := result.value]
    {
      var found := FindIndex(users, userId);
      if found.None? {
        return Err("User not found");
      }
      var k := found.value;
      var user := users[k].(profile := Merge(users[k].profile, patch));
      users := users[k := user];
      result := Ok(user);
    }

    /**
     * `POST /api/predict`: runs `predictJob` on the body as given and
     * appends exactly one record owned by the caller.
     */
    method Predict(userId: string, education: Education, id: string, now: int) returns (prediction: Prediction)
      requires Valid()
      modifies this
      ensures Valid()
      ensures users == old(users)
      ensures prediction == Predicted(education)
      ensures predictions == old(predictions) + [Record(id, userId, education, prediction, now)]
    {
      prediction := PredictJob(education);
      predictions := predictions + [Record(id, userId, education, prediction, now)];
    }
  }
}
