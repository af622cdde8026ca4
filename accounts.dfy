/** The users and providers collections, the role a user holds, and the two
    account handlers' effects on them as pure functions: registration
    (`POST /users`) and promotion of a user to provider (`POST /providers`). */
module Accounts {
  import opened Documents

  const AdminRole := "admin"
  const ProviderRole := "provider"

  /** A user document: the looked-up email, the role string, and every other
      field of the registration body (name, photo, ...). */
  datatype UserDoc = UserDoc(email: Option<string>, role: Option<string>, fields: map<string, string>)

  /** A provider document: the looked-up email and every other field. */
  datatype ProviderDoc = ProviderDoc(email: Option<string>, fields: map<string, string>)

  function UserEmail(u: UserDoc): Option<string> { u.email }

  function ProviderEmail(p: ProviderDoc): Option<string> { p.email }

  /** Position `k` holds the first user, in natural order, with that email. */
  predicate FirstWithEmail(users: seq<Document<UserDoc>>, email: Option<string>, k: int) {
    0 <= k < |users| && users[k].body.email == email &&
    forall j :: 0 <= j < k ==> users[j].body.email != email
  }

  /** `findOne({email})` on the users collection: the first stored user,
      in natural order, with that email. */
  function FindUser(users: seq<Document<UserDoc>>, email: Option<string>): (r: Option<UserDoc>)
    ensures r.Some? <==> exists i :: 0 <= i < |users| && users[i].body.email == email
    ensures r.Some? ==> r.value.email == email
    ensures r.Some? ==> exists k :: FirstWithEmail(users, email, k) && r.value == users[k].body
  {
    match FindOne(users, UserEmail, email)
    case Some(k) =>
      assert UserEmail(users[k].body) == users[k].body.email;
      Some(users[k].body)
    case None =>
      assert forall i :: 0 <= i < |users| ==> UserEmail(users[i].body) == users[i].body.email;
      None
  }

  /** `user?.role === role` for the user `findOne({email})` returns: false
      when there is no such user, and only the exact string counts. */
  predicate HasRole(users: seq<Document<UserDoc>>, email: Option<string>, role: string) {
    match FindUser(users, email)
    case Some(u) => u.role == Some(role)
    case None => false
  }

  /** Each user email (absent counting as one value) belongs to one user. */
  ghost predicate UserEmailsUnique(users: seq<Document<UserDoc>>) {
    UniqueBy(users, UserEmail)
  }

  ghost predicate ProviderEmailsUnique(providers: seq<Document<ProviderDoc>>) {
    UniqueBy(providers, ProviderEmail)
  }

  /** Every provider document's email is that of a user whose role is
      "provider": the only insert into providers comes right after that
      role was set. */
  ghost predicate ProvidersAreUsers(users: seq<Document<UserDoc>>, providers: seq<Document<ProviderDoc>>) {
    forall i :: 0 <= i < |providers| ==> HasRole(users, providers[i].body.email, ProviderRole)
  }

  /** With one user per email, `HasRole` agrees with the plain reading
      "some user with that email holds that role". */
  lemma HasRoleIffSomeUser(users: seq<Document<UserDoc>>, email: Option<string>, role: string)
    requires UserEmailsUnique(users)
    ensures HasRole(users, email, role) <==>
      exists i :: 0 <= i < |users| && users[i].body.email == email && users[i].body.role == Some(role)
  {
    if i :| 0 <= i < |users| && users[i].body.email == email && users[i].body.role == Some(role) {
      FindOneUnique(users, UserEmail, email, i);
    }
  }

  /** The `insertOne(user)` of `POST /users` when no user has the new email. */
  function InsertUser(users: seq<Document<UserDoc>>, id: ObjectId, user: UserDoc): seq<Document<UserDoc>> {
    users + [Document(id, user)]
  }

  /** Registration keeps one user per email and one document per id, and
      changes the role found for no email already present. */
  lemma {:induction false} RegistrationKeepsUsers(users: seq<Document<UserDoc>>, id: ObjectId, user: UserDoc)
    requires UserEmailsUnique(users) && IdsUnique(users)
    requires FindUser(users, user.email).None?
    requires forall i :: 0 <= i < |users| ==> users[i].id != id
    ensures UserEmailsUnique(InsertUser(users, id, user)) && IdsUnique(InsertUser(users, id, user))
    ensures forall email, role :: FindUser(users, email).Some? ==>
      HasRole(InsertUser(users, id, user), email, role) == HasRole(users, email, role)
    ensures forall role :: HasRole(InsertUser(users, id, user), user.email, role) <==> user.role == Some(role)
  {
    var users' := InsertUser(users, id, user);
    forall email | FindUser(users, email).Some?
      ensures FindUser(users', email) == FindUser(users, email)
    {
      FindOneAfterInsert(users, Document(id, user), UserEmail, email);
    }
    FindOneAfterInsert(users, Document(id, user), UserEmail, user.email);
    assert FindUser(users', user.email) == Some(user);
  }

  /** A fresh account registered with a role in its body holds that role:
      the handler stores the body as sent, so such an account passes the
      admin gate with no admin involved. */
  lemma SelfRegisteredRoleHolds(users: seq<Document<UserDoc>>, id: ObjectId, email: string, fields: map<string, string>)
    requires UserEmailsUnique(users) && IdsUnique(users)
    requires FindUser(users, Some(email)).None?
    requires forall i :: 0 <= i < |users| ==> users[i].id != id
    ensures HasRole(InsertUser(users, id, UserDoc(Some(email), Some(AdminRole), fields)), Some(email), AdminRole)
  {
    RegistrationKeepsUsers(users, id, UserDoc(Some(email), Some(AdminRole), fields));
  }

  /** The `updateOne({email}, {$set: {role: "provider"}})` of `POST /providers`,
      applied to the document `findOne` picks. */
  function SetProviderRole(users: seq<Document<UserDoc>>, k: nat): seq<Document<UserDoc>>
    requires k < |users|
  {
    users[k := Document(users[k].id, users[k].body.(role := Some(ProviderRole)))]
  }

  /** Promoting the user found for an email makes that email a provider's,
      and leaves every other email's role as it was. */
  lemma {:induction false} PromotionSetsOneRole(users: seq<Document<UserDoc>>, email: Option<string>)
    requires FindOne(users, UserEmail, email).Some?
    ensures var users' := SetProviderRole(users, FindOne(users, UserEmail, email).value);
      && HasRole(users', email, ProviderRole)
      && (forall e, role :: e != email ==> HasRole(users', e, role) == HasRole(users, e, role))
      && (forall e :: FindUser(users', e).Some? <==> FindUser(users, e).Some?)
  {
    var k := FindOne(users, UserEmail, email).value;
    var users' := SetProviderRole(users, k);
    forall e ensures FindOne(users', UserEmail, e) == FindOne(users, UserEmail, e) {
      FindOneSeesOnlyField(users, users', UserEmail, e);
    }
  }

  /** Promotion keeps one user per email, one document per id, and every
      existing provider's user still a provider; inserting the new provider
      document for an email no provider has yet keeps the provider
      collection's ids and emails unique and its users providers. */
  lemma PromotionKeepsInvariants(users: seq<Document<UserDoc>>, providers: seq<Document<ProviderDoc>>,
                                 info: ProviderDoc, newId: ObjectId)
    requires UserEmailsUnique(users) && IdsUnique(users)
    requires IdsUnique(providers) && ProviderEmailsUnique(providers)
    requires ProvidersAreUsers(users, providers)
    requires FindOne(users, UserEmail, info.email).Some?
    requires forall i :: 0 <= i < |providers| ==> providers[i].body.email != info.email
    requires forall i :: 0 <= i < |providers| ==> providers[i].id != newId
    ensures var users' := SetProviderRole(users, FindOne(users, UserEmail, info.email).value);
      var providers' := providers + [Document(newId, info)];
      && UserEmailsUnique(users') && IdsUnique(users') && ProvidersAreUsers(users', providers)
      && IdsUnique(providers') && ProviderEmailsUnique(providers') && ProvidersAreUsers(users', providers')
  {
    var users' := SetProviderRole(users, FindOne(users, UserEmail, info.email).value);
    var providers' := providers + [Document(newId, info)];
    PromotionSetsOneRole(users, info.email);
    assert forall i :: 0 <= i < |users| ==> UserEmail(users'[i].body) == UserEmail(users[i].body);
    assert forall i :: 0 <= i < |providers| ==> ProviderEmail(providers[i].body) != ProviderEmail(info);
  }
}
