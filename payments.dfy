/** The appointment side of the payment workflow: the `$set` that
    `/create-payment` applies to the selected appointments, the one that
    `/success-payment` applies to a transaction's appointments, the
    confirmation email, and how the two updates compose. */
module Payments {
  import opened Documents

  const Pending := "pending"
  const Paid := "paid"
  const ValidStatus := "VALID"

  /** An appointment document: the three fields the payment workflow writes,
      and every other field (category, requester, provider, date, price,
      meeting link, ...) as text. */
  datatype AppointmentDoc = AppointmentDoc(
    status: Option<string>,
    paymentId: Option<string>,
    customerEmail: Option<string>,
    fields: map<string, string>)

  function PaymentId(a: AppointmentDoc): Option<string> { a.paymentId }

  /** The gateway's POST to `/success-payment`: the fields the handler reads. */
  datatype Callback = Callback(status: Option<string>, tranId: Option<string>, currency: Option<string>, amount: Option<string>)

  /** The confirmation `resend.emails.send` is asked to deliver. The html
      body is kept as the values it interpolates. */
  datatype Email = Email(from: string, to: Option<string>, subject: string,
                         currency: Option<string>, amount: Option<string>, tranId: Option<string>)

  function ConfirmationEmail(to: Option<string>, cb: Callback): Email {
    Email("onboarding@resend.dev", to, "Payment Successful", cb.currency, cb.amount, cb.tranId)
  }

  /** `updateMany({_id: {$in: ids}}, {$set: {paymentId, status: "pending", customerEmail}})`. */
  function MarkPending(appts: seq<Document<AppointmentDoc>>, ids: set<ObjectId>, tranId: string, email: Option<string>)
    : (r: seq<Document<AppointmentDoc>>)
    ensures |r| == |appts|
    ensures forall i :: 0 <= i < |appts| ==> r[i].id == appts[i].id
    ensures forall i :: 0 <= i < |appts| && appts[i].id in ids ==>
      r[i].body == appts[i].body.(status := Some(Pending), paymentId := Some(tranId), customerEmail := email)
    ensures forall i :: 0 <= i < |appts| && appts[i].id !in ids ==> r[i] == appts[i]
  {
    UpdateMany(appts, (d: Document<AppointmentDoc>) => d.id in ids,
               (a: AppointmentDoc) => a.(status := Some(Pending), paymentId := Some(tranId), customerEmail := email))
  }

  /** `updateMany({paymentId: tranId}, {$set: {paymentId: tranId, status: "paid"}})`. */
  function MarkPaid(appts: seq<Document<AppointmentDoc>>, tranId: Option<string>): (r: seq<Document<AppointmentDoc>>)
    ensures |r| == |appts|
    ensures forall i :: 0 <= i < |appts| ==> r[i].id == appts[i].id
    ensures forall i :: 0 <= i < |appts| && appts[i].body.paymentId == tranId ==>
      r[i].body == appts[i].body.(status := Some(Paid))
    ensures forall i :: 0 <= i < |appts| && appts[i].body.paymentId != tranId ==> r[i] == appts[i]
  {
    UpdateMany(appts, (d: Document<AppointmentDoc>) => d.body.paymentId == tranId,
               (a: AppointmentDoc) => a.(paymentId := tranId, status := Some(Paid)))
  }

  /** Appointments that share a transaction id were reserved together and
      share the payer's email. */
  ghost predicate BatchesConsistent(appts: seq<Document<AppointmentDoc>>) {
    forall i, j ::
      (0 <= i < |appts| && 0 <= j < |appts| && appts[i].body.paymentId.Some? &&
       appts[i].body.paymentId == appts[j].body.paymentId) ==>
        appts[i].body.customerEmail == appts[j].body.customerEmail
  }

  /** A transaction id no appointment carries yet. */
  ghost predicate FreshTransaction(appts: seq<Document<AppointmentDoc>>, tranId: string) {
    forall i :: 0 <= i < |appts| ==> appts[i].body.paymentId != Some(tranId)
  }

  /** With a fresh transaction id, the reservation's batch is exactly the
      selected appointments that exist, and batches stay consistent. */
  lemma MarkPendingFormsBatch(appts: seq<Document<AppointmentDoc>>, ids: set<ObjectId>, tranId: string, email: Option<string>)
    requires FreshTransaction(appts, tranId)
    requires BatchesConsistent(appts)
    ensures var r := MarkPending(appts, ids, tranId, email);
      && (forall i :: 0 <= i < |r| ==> (r[i].body.paymentId == Some(tranId) <==> appts[i].id in ids))
      && BatchesConsistent(r)
  {
  }

  /** The success update keeps batches consistent. */
  lemma MarkPaidKeepsBatches(appts: seq<Document<AppointmentDoc>>, tranId: Option<string>)
    requires BatchesConsistent(appts)
    ensures BatchesConsistent(MarkPaid(appts, tranId))
  {
  }

  /** A repeated success callback finds the same first appointment, and its
      update changes nothing more. */
  lemma MarkPaidIdempotent(appts: seq<Document<AppointmentDoc>>, tranId: Option<string>)
    ensures var r := MarkPaid(appts, tranId);
      MarkPaid(r, tranId) == r && FindOne(r, PaymentId, tranId) == FindOne(appts, PaymentId, tranId)
  {
    var r := MarkPaid(appts, tranId);
    FindOneSeesOnlyField(appts, r, PaymentId, tranId);
    var r2 := MarkPaid(r, tranId);
    assert forall i :: 0 <= i < |r| ==> r2[i] == r[i];
  }

  /** Under consistent batches, the payer's email read from the first
      matching appointment is that of every appointment the callback pays. */
  lemma RecipientIsEveryPayer(appts: seq<Document<AppointmentDoc>>, tranId: string)
    requires BatchesConsistent(appts)
    requires FindOne(appts, PaymentId, Some(tranId)).Some?
    ensures var k := FindOne(appts, PaymentId, Some(tranId)).value;
      forall i :: 0 <= i < |appts| && appts[i].body.paymentId == Some(tranId) ==>
        appts[i].body.customerEmail == appts[k].body.customerEmail
  {
  }

  /** Reserving a batch under a fresh id and then receiving a valid callback
      for that id pays exactly the batch: each selected appointment ends
      "paid", carrying the id and the payer's email, and every other
      appointment is as it was before the reservation. The callback finds an
      appointment exactly when the batch is non-empty, and then writes to the
      payer's email. */
  lemma ReserveThenPay(appts: seq<Document<AppointmentDoc>>, ids: set<ObjectId>, tranId: string, email: Option<string>)
    requires FreshTransaction(appts, tranId)
    ensures var reserved := MarkPending(appts, ids, tranId, email);
      var paid := MarkPaid(reserved, Some(tranId));
      && |paid| == |appts|
      && (forall i :: 0 <= i < |appts| && appts[i].id in ids ==>
            paid[i] == Document(appts[i].id, appts[i].body.(status := Some(Paid), paymentId := Some(tranId), customerEmail := email)))
      && (forall i :: 0 <= i < |appts| && appts[i].id !in ids ==> paid[i] == appts[i])
      && (FindOne(reserved, PaymentId, Some(tranId)).Some? <==> exists i :: 0 <= i < |appts| && appts[i].id in ids)
      && (FindOne(reserved, PaymentId, Some(tranId)).Some? ==>
            reserved[FindOne(reserved, PaymentId, Some(tranId)).value].body.customerEmail == email)
  {
    var reserved := MarkPending(appts, ids, tranId, email);
    var paid := MarkPaid(reserved, Some(tranId));
    forall i | 0 <= i < |appts| && appts[i].id in ids
      ensures paid[i] == Document(appts[i].id, appts[i].body.(status := Some(Paid), paymentId := Some(tranId), customerEmail := email))
    {
      assert reserved[i].body.paymentId == Some(tranId);
    }
    forall i | 0 <= i < |appts| && appts[i].id !in ids ensures paid[i] == appts[i] {
      assert reserved[i] == appts[i];
    }
    if i :| 0 <= i < |appts| && appts[i].id in ids {
      assert PaymentId(reserved[i].body) == Some(tranId);
    }
    match FindOne(reserved, PaymentId, Some(tranId))
    case Some(k) => assert appts[k].id in ids;
    case None =>
  }
}
