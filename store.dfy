/** The server's state and the route handlers that change it. The three
    collections the handlers write (appointments, users, providers) are fields
    of a `Store`, and so is the outbox of confirmation emails handed to the
    mail service. Each handler is a method that runs the route's awaited steps
    in the route's order. */
module Server {
  import opened Documents
  import opened Accounts
  import opened Roles
  import opened Gateway
  import opened Payments

  /** Why `/create-payment` threw before answering: the gateway POST failed,
      the body had no `selectedAppointments` array, or one of its ids is not
      an ObjectId. */
  datatype Fault = GatewayFailed | NoSelection | InvalidObjectId

  /** `/create-payment` sends the gateway's page URL (an empty body when the
      gateway gave none), or throws and sends nothing. */
  datatype PaymentReply = GatewayPage(url: Option<string>) | Unanswered(fault: Fault)

  /** `/success-payment` answers with a status and `{error}`, or redirects. */
  datatype CallbackReply = Rejected(code: nat, error: string) | Redirect(url: string)

  const InvalidPayment := Rejected(400, "Invalid payment")
  const AppointmentNotFound := Rejected(404, "Appointment not found")

  /** `POST /users`: "Already exist in database" with `insertedId: null`,
      or the insert's result. */
  datatype RegisterReply = AlreadyExists | Inserted(insertedId: ObjectId)

  /** `POST /providers`, including the answers of its middleware chain. */
  datatype ProviderReply =
    | Denied(gate: Gate)
    | ProviderAlreadyExists             // "Provider already exists"
    | UserDoesNotExist                  // "User does not exist. Check the email address."
    | ProviderAdded(insertedId: ObjectId) // "Provider added successfully"
    | RoleNotUpdated                    // "Failed to update user role."

  /** What the modelled handlers keep true of the collections. */
  ghost predicate Consistent(appointments: seq<Document<AppointmentDoc>>,
                             users: seq<Document<UserDoc>>,
                             providers: seq<Document<ProviderDoc>>) {
    && IdsUnique(appointments) && BatchesConsistent(appointments)
    && IdsUnique(users) && UserEmailsUnique(users)
    && IdsUnique(providers) && ProviderEmailsUnique(providers)
    && ProvidersAreUsers(users, providers)
  }

  class Store {
    var appointments: seq<Document<AppointmentDoc>>
    var users: seq<Document<UserDoc>>
    var providers: seq<Document<ProviderDoc>>
    var outbox: seq<Email>

    ghost predicate Valid()
      reads this
    {
      Consistent(appointments, users, providers)
    }

    /** A store over existing collections, with nothing sent yet. */
    constructor (appointments: seq<Document<AppointmentDoc>>,
                 users: seq<Document<UserDoc>>,
                 providers: seq<Document<ProviderDoc>>)
      requires Consistent(appointments, users, providers)
      ensures Valid()
      ensures this.appointments == appointments && this.users == users && this.providers == providers
      ensures outbox == []
    {
      this.appointments := appointments;
      this.users := users;
      this.providers := providers;
      outbox := [];
    }

    /** `POST /create-payment`. `tranId` is the freshly generated ObjectId's
        text; `gateway` is the SSLCommerz endpoint, which sees the payload.
        The gateway is called first, so a failed call leaves every
        appointment as it was; the page URL is sent only after the update. */
    method CreatePayment(cfg: Config, info: PaymentInfo, tranId: string, gateway: InitiateData -> GatewayReply)
      returns (reply: PaymentReply)
      requires Valid()
      requires FreshTransaction(appointments, tranId)
      modifies this
      ensures Valid()
      ensures users == old(users) && providers == old(providers) && outbox == old(outbox)
      ensures var sent := gateway(BuildInitiateData(cfg, info, tranId));
        && (sent.Unreachable? ==> reply == Unanswered(GatewayFailed))
        && (sent.Replied? && info.selectedAppointments.None? ==> reply == Unanswered(NoSelection))
        && ((sent.Replied? && info.selectedAppointments.Some? &&
             ParseObjectIds(info.selectedAppointments.value).None?) ==> reply == Unanswered(InvalidObjectId))
        && (reply.GatewayPage? <==>
              (sent.Replied? && info.selectedAppointments.Some? &&
               ParseObjectIds(info.selectedAppointments.value).Some?))
        && (reply.GatewayPage? ==> reply.url == sent.gatewayPageUrl)
      ensures reply.Unanswered? ==> appointments == old(appointments)
      ensures reply.GatewayPage? ==>
        && info.selectedAppointments.Some?
        && var ids := ParseObjectIds(info.selectedAppointments.value);
        && ids.Some?
        && |appointments| == |old(appointments)|
        && (forall i :: 0 <= i < |appointments| ==> appointments[i].id == old(appointments)[i].id)
        && (forall i :: 0 <= i < |appointments| && appointments[i].id in ids.value ==>
              appointments[i].body == old(appointments)[i].body.(status := Some(Pending),
                paymentId := Some(tranId), customerEmail := info.customerEmail))
        && (forall i :: 0 <= i < |appointments| && appointments[i].id !in ids.value ==>
              appointments[i] == old(appointments)[i])
        && (forall i :: 0 <= i < |appointments| ==>
              (appointments[i].body.paymentId == Some(tranId) <==> appointments[i].id in ids.value))
    {
      var initiateData := BuildInitiateData(cfg, info, tranId);
      var response := gateway(initiateData);
      if response.Unreachable? {
        return Unanswered(GatewayFailed);
      }
      if info.selectedAppointments.None? {
        return Unanswered(NoSelection);
      }
      var ids := ParseObjectIds(info.selectedAppointments.value);
      if ids.None? {
        return Unanswered(InvalidObjectId);
      }
      MarkPendingFormsBatch(appointments, ids.value, tranId, info.customerEmail);
      appointments := MarkPending(appointments, ids.value, tranId, info.customerEmail);
      reply := GatewayPage(response.gatewayPageUrl);
    }

    /** `POST /success-payment`. Only a "VALID" status is accepted; the payer
        is read from the first appointment carrying the transaction id; every
        appointment carrying it becomes "paid"; one confirmation email is
        queued; the browser goes to the frontend's success page. */
    method SuccessPayment(cfg: Config, cb: Callback) returns (reply: CallbackReply)
      requires Valid()
      modifies this
      ensures Valid()
      ensures users == old(users) && providers == old(providers)
      ensures cb.status != Some(ValidStatus) ==>
        reply == InvalidPayment && appointments == old(appointments) && outbox == old(outbox)
      ensures cb.status == Some(ValidStatus) && FindOne(old(appointments), PaymentId, cb.tranId).None? ==>
        reply == AppointmentNotFound && appointments == old(appointments) && outbox == old(outbox)
      ensures reply.Redirect? <==>
        cb.status == Some(ValidStatus) && FindOne(old(appointments), PaymentId, cb.tranId).Some?
      ensures reply.Redirect? ==>
        && reply.url == cfg.frontendUrl + "/success"
        && var payer := old(appointments)[FindOne(old(appointments), PaymentId, cb.tranId).value].body.customerEmail;
        && outbox == old(outbox) + [ConfirmationEmail(payer, cb)]
        && |appointments| == |old(appointments)|
        && (forall i :: 0 <= i < |appointments| && old(appointments)[i].body.paymentId == cb.tranId ==>
              appointments[i] == Document(old(appointments)[i].id, old(appointments)[i].body.(status := Some(Paid))))
        && (forall i :: 0 <= i < |appointments| && old(appointments)[i].body.paymentId != cb.tranId ==>
              appointments[i] == old(appointments)[i])
        && (cb.tranId.Some? ==> forall i :: 0 <= i < |appointments| && appointments[i].body.paymentId == cb.tranId ==>
              appointments[i].body.customerEmail == payer)
    {
      if cb.status != Some(ValidStatus) {
        return InvalidPayment;
      }
      var found := FindOne(appointments, PaymentId, cb.tranId);
      if found.None? {
        return AppointmentNotFound;
      }
      var userEmail := appointments[found.value].body.customerEmail;
      if cb.tranId.Some? {
        RecipientIsEveryPayer(appointments, cb.tranId.value);
      }
      MarkPaidKeepsBatches(appointments, cb.tranId);
      appointments := MarkPaid(appointments, cb.tranId);
      outbox := outbox + [ConfirmationEmail(userEmail, cb)];
      reply := Redirect(cfg.frontendUrl + "/success");
    }

    /** `POST /users`: insert the body under a fresh `_id` unless a user with
        its email (or, for a body without one, a user without one) exists. */
    method RegisterUser(user: UserDoc, newId: ObjectId) returns (reply: RegisterReply)
      requires Valid()
      requires forall i :: 0 <= i < |users| ==> users[i].id != newId
      modifies this
      ensures Valid()
      ensures appointments == old(appointments) && providers == old(providers) && outbox == old(outbox)
      ensures reply == AlreadyExists <==> exists i :: 0 <= i < |old(users)| && old(users)[i].body.email == user.email
      ensures reply == AlreadyExists ==> users == old(users)
      ensures reply.Inserted? ==> reply.insertedId == newId && users == old(users) + [Document(newId, user)]
    {
      var existingUser := FindUser(users, user.email);
      if existingUser.Some? {
        return AlreadyExists;
      }
      RegistrationKeepsUsers(users, newId, user);
      assert forall i :: 0 <= i < |providers| ==> FindUser(users, providers[i].body.email).Some?;
      users := InsertUser(users, newId, user);
      reply := Inserted(newId);
    }

    /** `POST /providers` behind `verifyToken, verifyAdmin`: refuse an email
        that already has a provider document or has no user; otherwise set
        the user's role to "provider" and, only if that modified the user,
        insert the body as a provider under a fresh `_id`. */
    method AddProvider(auth: Auth, providerInfo: ProviderDoc, newId: ObjectId) returns (reply: ProviderReply)
      requires Valid()
      requires forall i :: 0 <= i < |providers| ==> providers[i].id != newId
      modifies this
      ensures Valid()
      ensures appointments == old(appointments) && outbox == old(outbox)
      ensures Guard(old(users), auth, AdminRole).Deny? ==> reply == Denied(Guard(old(users), auth, AdminRole))
      ensures !reply.ProviderAdded? && !reply.RoleNotUpdated? ==> users == old(users)
      ensures !reply.ProviderAdded? ==> providers == old(providers)
      ensures Guard(old(users), auth, AdminRole).Pass? ==>
        var email := providerInfo.email;
        var found := FindOne(old(users), UserEmail, email);
        && ((exists i :: 0 <= i < |old(providers)| && old(providers)[i].body.email == email) ==>
              reply == ProviderAlreadyExists)
        && ((forall i :: 0 <= i < |old(providers)| ==> old(providers)[i].body.email != email) ==>
              && (found.None? ==> reply == UserDoesNotExist)
              && (found.Some? && old(users)[found.value].body.role == Some(ProviderRole) ==>
                    reply == RoleNotUpdated && users == old(users))
              && (found.Some? && old(users)[found.value].body.role != Some(ProviderRole) ==>
                    && reply == ProviderAdded(newId)
                    && users == old(users)[found.value := Document(old(users)[found.value].id,
                                 old(users)[found.value].body.(role := Some(ProviderRole)))]
                    && providers == old(providers) + [Document(newId, providerInfo)]))
    {
      var gate := Guard(users, auth, AdminRole);
      if gate.Deny? {
        return Denied(gate);
      }
      var email := providerInfo.email;
      var existingProvider := FindOne(providers, ProviderEmail, email);
      if existingProvider.Some? {
        return ProviderAlreadyExists;
      }
      var found := FindOne(users, UserEmail, email);
      if found.None? {
        return UserDoesNotExist;
      }
      var k := found.value;
      // updateOne reports modifiedCount 0 when the role already is "provider"
      var modified := users[k].body.role != Some(ProviderRole);
      PromotionKeepsInvariants(users, providers, providerInfo, newId);
      users := SetProviderRole(users, k);
      if modified {
        providers := providers + [Document(newId, providerInfo)];
        reply := ProviderAdded(newId);
      } else {
        reply := RoleNotUpdated;
      }
    }
  }

  /** The gateway delivering the same success callback twice. The second
      delivery is answered as the first was and changes no appointment, but
      it queues the same confirmation email again: nothing checks whether the
      transaction was already paid. */
  method DeliverTwice(store: Store, cfg: Config, cb: Callback) returns (first: CallbackReply, second: CallbackReply)
    requires store.Valid()
    modifies store
    ensures store.Valid()
    ensures store.users == old(store.users) && store.providers == old(store.providers)
    ensures second == first
    ensures first.Redirect? <==>
      cb.status == Some(ValidStatus) && FindOne(old(store.appointments), PaymentId, cb.tranId).Some?
    ensures store.appointments == if first.Redirect? then MarkPaid(old(store.appointments), cb.tranId)
                                  else old(store.appointments)
    ensures first.Redirect? ==>
      && var payer := old(store.appointments)[FindOne(old(store.appointments), PaymentId, cb.tranId).value].body.customerEmail;
      && store.outbox == old(store.outbox) + [ConfirmationEmail(payer, cb), ConfirmationEmail(payer, cb)]
    ensures !first.Redirect? ==> store.outbox == old(store.outbox)
  {
    ghost var before := store.appointments;
    MarkPaidIdempotent(before, cb.tranId);
    ghost var sentBefore := store.outbox;
    first := store.SuccessPayment(cfg, cb);
    if first.Redirect? {
      assert store.appointments == MarkPaid(before, cb.tranId);
    }
    second := store.SuccessPayment(cfg, cb);
    if first.Redirect? {
      FindOneSeesOnlyField(before, MarkPaid(before, cb.tranId), PaymentId, cb.tranId);
      assert store.outbox == sentBefore + [store.outbox[|sentBefore|], store.outbox[|sentBefore| + 1]];
    }
  }
}
