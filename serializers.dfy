/**
  The request validators of construction/serializers.py. A serializer's
  attrs are a map from field name to value; a rejection is a map from field
  name to message, with "non_field_errors" for a message raised by
  validate() itself.
 */
module Serializers {
  import opened Wrappers
  import opened Text
  import opened PyValue

  type Errors = map<string, string>

  const NonFieldErrors: string := "non_field_errors"

  // ---------------------------------------------------------------- payments

  const AmountMessage: string := "Payment amount must be greater than zero."

  /** PaymentSerializer.validate_amount. */
  function ValidateAmount(value: real): (r: Result<real, Errors>)
    ensures r.Ok? <==> value > 0.0
    ensures r.Ok? ==> r.value == value
    ensures r.Err? ==> r.error == map["amount" := AmountMessage]
  {
    if value <= 0.0 then Err(map["amount" := AmountMessage]) else Ok(value)
  }

  // -------------------------------------------------------------------- jobs

  const ScheduledOrderMessage: string := "Scheduled end date must be after or equal to start date."
  const ActualOrderMessage: string := "Actual end date must be after or equal to start date."

  /** Both dates of a pair are given and the end comes before the start. */
  predicate EndsBeforeStart(attrs: Attrs, startKey: string, endKey: string)
  {
    var start, end := DateOf(Get(attrs, startKey)), DateOf(Get(attrs, endKey));
    start.Some? && end.Some? && end.value < start.value
  }

  /** JobSerializer.validate: the scheduled pair is checked first, then the actual pair. */
  function JobValidate(attrs: Attrs): (r: Result<Attrs, Errors>)
    ensures r.Ok? <==>
      !EndsBeforeStart(attrs, "scheduled_start_date", "scheduled_end_date")
      && !EndsBeforeStart(attrs, "actual_start_date", "actual_end_date")
    ensures r.Ok? ==> r.value == attrs
    ensures EndsBeforeStart(attrs, "scheduled_start_date", "scheduled_end_date") ==>
      r == Err(map[NonFieldErrors := ScheduledOrderMessage])
    ensures (!EndsBeforeStart(attrs, "scheduled_start_date", "scheduled_end_date")
             && EndsBeforeStart(attrs, "actual_start_date", "actual_end_date")) ==>
      r == Err(map[NonFieldErrors := ActualOrderMessage])
  {
    if EndsBeforeStart(attrs, "scheduled_start_date", "scheduled_end_date") then
      Err(map[NonFieldErrors := ScheduledOrderMessage])
    else if EndsBeforeStart(attrs, "actual_start_date", "actual_end_date") then
      Err(map[NonFieldErrors := ActualOrderMessage])
    else Ok(attrs)
  }

  /** A job whose dates are all given passes exactly when each end is on or after its start. */
  lemma JobValidateDates(attrs: Attrs, s0: int, s1: int, a0: int, a1: int)
    requires Get(attrs, "scheduled_start_date") == Date(s0) && Get(attrs, "scheduled_end_date") == Date(s1)
    requires Get(attrs, "actual_start_date") == Date(a0) && Get(attrs, "actual_end_date") == Date(a1)
    ensures JobValidate(attrs).Ok? <==> s0 <= s1 && a0 <= a1
  {
  }

  // --------------------------------------------------------------- estimates

  /** What EstimateSerializer.validate leaves in attrs, given the attrs it was handed. */
  ghost predicate EstimateFilled(attrs: Attrs, out: Attrs, today: int)
  {
    var status := Get(attrs, "status");
    var fillSent := status == Str("SENT") && !Truthy(Get(attrs, "estimate_sent_date"));
    var fillResponse := (status == Str("ACCEPTED") || status == Str("REJECTED"))
                        && !Truthy(Get(attrs, "response_date"));
    && out.Keys == attrs.Keys
                   + (if fillSent then {"estimate_sent_date"} else {})
                   + (if fillResponse then {"response_date"} else {})
    && (forall k :: k in attrs && k != "estimate_sent_date" && k != "response_date" ==> out[k] == attrs[k])
    && (if fillSent then out["estimate_sent_date"] == Date(today)
        else Get(out, "estimate_sent_date") == Get(attrs, "estimate_sent_date"))
    && (if fillResponse then out["response_date"] == Date(today)
        else Get(out, "response_date") == Get(attrs, "response_date"))
  }

  /**
    EstimateSerializer.validate: a SENT estimate without a sent date gets
    today's, an ACCEPTED or REJECTED one without a response date gets
    today's; a date already given is kept and no other key changes.
   */
  method EstimateValidate(attrs: Attrs, today: int) returns (out: Attrs)
    ensures EstimateFilled(attrs, out, today)
  {
    out := attrs;
    if Get(out, "status") == Str("SENT") && !Truthy(Get(out, "estimate_sent_date")) {
      out := out["estimate_sent_date" := Date(today)];
    }
    var status := Get(out, "status");
    if (status == Str("ACCEPTED") || status == Str("REJECTED")) && !Truthy(Get(out, "response_date")) {
      out := out["response_date" := Date(today)];
    }
  }

  /** Filled dates are never overwritten: validating the result again changes nothing. */
  lemma EstimateFillIdempotent(attrs: Attrs, once: Attrs, twice: Attrs, today: int, later: int)
    requires EstimateFilled(attrs, once, today)
    requires EstimateFilled(once, twice, later)
    ensures twice == once
  {
    assert Get(once, "status") == Get(attrs, "status");
  }

  // ------------------------------------------------------------ registration

  const PasswordMismatchMessage: string := "Password fields didn't match."

  /** UserRegistrationSerializer.validate; both password fields are required by the serializer. */
  function RegistrationValidate(attrs: Attrs): (r: Result<Attrs, Errors>)
    requires "password" in attrs && "password2" in attrs
    ensures r.Ok? <==> attrs["password"] == attrs["password2"]
    ensures r.Ok? ==> r.value == attrs
    ensures r.Err? ==> r.error == map["password" := PasswordMismatchMessage]
  {
    if attrs["password"] != attrs["password2"] then Err(map["password" := PasswordMismatchMessage])
    else Ok(attrs)
  }

  /** UserRegistrationSerializer.create: the confirmation is popped; the rest goes to create_user. */
  method RegistrationCreate(validated: Attrs) returns (userFields: Attrs)
    requires "password2" in validated
    ensures userFields.Keys == validated.Keys - {"password2"}
    ensures forall k :: k in userFields ==> userFields[k] == validated[k]
  {
    userFields := validated - {"password2"};
  }

  /** A registration that passes validation creates the user with the password typed twice. */
  lemma RegistrationKeepsPassword(attrs: Attrs, userFields: Attrs)
    requires "password" in attrs && "password2" in attrs && RegistrationValidate(attrs).Ok?
    requires userFields.Keys == attrs.Keys - {"password2"}
    requires forall k :: k in userFields ==> userFields[k] == attrs[k]
    ensures "password" in userFields && userFields["password"] == attrs["password2"]
    ensures "password2" !in userFields
  {
    assert "password" in userFields;
  }

  // ---------------------------------------------------------------- customers

  const DuplicateCustomerMessage: string := "A customer with this email already exists."

  /** Customer.objects.filter(email__iexact=value).exists(). */
  predicate EmailTaken(value: string, existing: seq<string>)
  {
    exists i :: 0 <= i < |existing| && Lower(existing[i]) == Lower(value)
  }

  /**
    CustomerSerializer.validate_email: an email some customer already has, in
    any letter case, is rejected unless it is the email (in any letter case)
    of the customer being updated.
   */
  function ValidateEmail(value: string, existing: seq<string>, instanceEmail: Option<string>): (r: Result<string, Errors>)
    ensures r.Ok? ==> r.value == value
    ensures r.Err? <==>
      EmailTaken(value, existing) && !(instanceEmail.Some? && Lower(instanceEmail.value) == Lower(value))
    ensures r.Err? ==> r.error == map["email" := DuplicateCustomerMessage]
  {
    if EmailTaken(value, existing) then
      if instanceEmail.Some? && Lower(instanceEmail.value) == Lower(value) then Ok(value)
      else Err(map["email" := DuplicateCustomerMessage])
    else Ok(value)
  }

  /** The check ignores letter case: emails that agree in lower case get the same verdict. */
  lemma {:induction false} ValidateEmailIgnoresCase(a: string, b: string, existing: seq<string>, instanceEmail: Option<string>)
    requires Lower(a) == Lower(b)
    ensures ValidateEmail(a, existing, instanceEmail).Ok? == ValidateEmail(b, existing, instanceEmail).Ok?
  {
    if EmailTaken(a, existing) {
      var i :| 0 <= i < |existing| && Lower(existing[i]) == Lower(a);
      assert Lower(existing[i]) == Lower(b);
    }
    if EmailTaken(b, existing) {
      var i :| 0 <= i < |existing| && Lower(existing[i]) == Lower(b);
      assert Lower(existing[i]) == Lower(a);
    }
  }

  /** A new customer (no instance) cannot take an email that differs from a stored one only in case. */
  lemma {:induction false} NewCustomerEmailClash(value: string, existing: seq<string>, i: int)
    requires 0 <= i < |existing| && Lower(existing[i]) == Lower(value)
    ensures ValidateEmail(value, existing, None).Err?
  {
    assert EmailTaken(value, existing);
  }

  // ------------------------------------------------------------------ workers

  const RequiredMessage: string := "This field is required."
  const UsernameTakenMessage: string := "Username already exists."
  const EmailTakenMessage: string := "Email already exists."

  const WorkerRequiredFields: set<string> := {"first_name", "last_name", "username"}

  /** The required fields that are absent or empty in attrs. */
  function MissingFields(attrs: Attrs): (missing: set<string>)
    ensures missing <= WorkerRequiredFields
    ensures forall f :: f in WorkerRequiredFields ==> (f in missing <==> !Truthy(Get(attrs, f)))
  {
    set f | f in WorkerRequiredFields && !Truthy(Get(attrs, f))
  }

  /** A username a user already has (an exact match). */
  predicate UsernameTaken(v: Value, usernames: set<string>)
  {
    Truthy(v) && v.Str? && v.s in usernames
  }

  /** An email some user already has, in any letter case. */
  predicate UserEmailTaken(v: Value, emails: seq<string>)
  {
    Truthy(v) && v.Str? && EmailTaken(v.s, emails)
  }

  /**
    WorkerSerializer.validate: on create, every missing required field is
    reported at once; then a taken username, then a taken email, rejects the
    worker. On update nothing is checked.
   */
  function WorkerValidate(attrs: Attrs, updating: bool, usernames: set<string>, emails: seq<string>): (r: Result<Attrs, Errors>)
    ensures r.Ok? ==> r.value == attrs
    ensures updating ==> r.Ok?
    ensures !updating ==>
      (r.Ok? <==>
        && MissingFields(attrs) == {}
        && !UsernameTaken(Get(attrs, "username"), usernames)
        && !UserEmailTaken(Get(attrs, "email"), emails))
    ensures !updating && MissingFields(attrs) != {} ==>
      r.Err? && r.error.Keys == MissingFields(attrs) && forall f :: f in r.error ==> r.error[f] == RequiredMessage
    ensures !updating && MissingFields(attrs) == {} && UsernameTaken(Get(attrs, "username"), usernames) ==>
      r == Err(map["username" := UsernameTakenMessage])
    ensures (!updating && MissingFields(attrs) == {} && !UsernameTaken(Get(attrs, "username"), usernames)
             && UserEmailTaken(Get(attrs, "email"), emails)) ==>
      r == Err(map["email" := EmailTakenMessage])
  {
    if updating then Ok(attrs)
    else
      var missing := MissingFields(attrs);
      if missing != {} then Err(map f | f in missing :: RequiredMessage)
      else if UsernameTaken(Get(attrs, "username"), usernames) then Err(map["username" := UsernameTakenMessage])
      else if UserEmailTaken(Get(attrs, "email"), emails) then Err(map["email" := EmailTakenMessage])
      else Ok(attrs)
  }

  /** A worker created through the serializer has a username no user had and an email no user had in any case. */
  lemma WorkerCreateIsNew(attrs: Attrs, usernames: set<string>, emails: seq<string>)
    requires WorkerValidate(attrs, false, usernames, emails).Ok?
    ensures Get(attrs, "username").Str? ==> Get(attrs, "username").s !in usernames
    ensures forall i :: 0 <= i < |emails| && Get(attrs, "email").Str? && Get(attrs, "email").s != "" ==>
      Lower(emails[i]) != Lower(Get(attrs, "email").s)
  {
    assert "username" !in MissingFields(attrs);
  }

  const WorkerIdentityFields: set<string> := {"first_name", "last_name", "username", "email"}

  /** WorkerSerializer.update: the four user fields are popped (if present) before the worker is saved. */
  method WorkerUpdate(validated: Attrs) returns (workerFields: Attrs)
    ensures workerFields.Keys == validated.Keys - WorkerIdentityFields
    ensures forall k :: k in workerFields ==> workerFields[k] == validated[k]
  {
    workerFields := validated;
    workerFields := workerFields - {"first_name"};
    workerFields := workerFields - {"last_name"};
    workerFields := workerFields - {"username"};
    workerFields := workerFields - {"email"};
  }

  // ----------------------------------------------------------------- invoices

  const NegativePaidMessage: string := "Amount paid cannot be negative."

  /** attrs.get('amount_paid', 0). */
  function AmountPaidOf(attrs: Attrs): real
    requires "amount_paid" in attrs ==> attrs["amount_paid"].Num?
  {
    if "amount_paid" in attrs then attrs["amount_paid"].r else 0.0
  }

  /** InvoiceSerializer.validate: a negative amount paid is rejected; a missing one counts as 0.
    * amount_paid is a read-only field of the serializer, so request data never
    * carries it here; the check is modelled as written. */
  function InvoiceValidate(attrs: Attrs): (r: Result<Attrs, Errors>)
    requires "amount_paid" in attrs ==> attrs["amount_paid"].Num?
    ensures r.Ok? <==> !("amount_paid" in attrs && attrs["amount_paid"].r < 0.0)
    ensures r.Ok? ==> r.value == attrs
    ensures r.Err? ==> r.error == map[NonFieldErrors := NegativePaidMessage]
  {
    if AmountPaidOf(attrs) < 0.0 then Err(map[NonFieldErrors := NegativePaidMessage]) else Ok(attrs)
  }
}
