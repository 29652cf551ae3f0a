/**
  The request handling of the TopMaterialsByCost API view
  (construction/views.py): the clamp on the `limit` query parameter, the
  normalisation of an update payload into a list of records, and the id
  check that picks the stored material each record updates.
 */
module MaterialsApi {
  import opened Wrappers
  import opened Text
  import opened PyValue

  const DefaultLimit: int := 10
  const MaxLimit: int := 50

  /**
    The limit a GET asks for: int() of the query parameter, or 10 when the
    parameter is absent or int() rejects it.
   */
  function RequestedLimit(raw: Option<string>): int
  {
    if raw.None? then DefaultLimit
    else match ParseInt(raw.value)
      case None => DefaultLimit
      case Some(n) => n
  }

  /** max(1, min(limit, 50)) over the requested limit. */
  function ClampLimit(raw: Option<string>): (limit: int)
    ensures 1 <= limit <= MaxLimit
    ensures raw.None? ==> limit == DefaultLimit
    ensures raw.Some? && ParseInt(raw.value).None? ==> limit == DefaultLimit
    ensures raw.Some? && ParseInt(raw.value).Some? ==>
      var n := ParseInt(raw.value).value;
      (1 <= n <= MaxLimit ==> limit == n) && (n < 1 ==> limit == 1) && (n > MaxLimit ==> limit == MaxLimit)
  {
    var n := RequestedLimit(raw);
    if n > MaxLimit then MaxLimit else if n < 1 then 1 else n
  }

  /** Sending back the limit a request was given asks for the same limit again. */
  lemma ClampLimitStable(raw: Option<string>)
    ensures ClampLimit(Some(NatToString(ClampLimit(raw)))) == ClampLimit(raw)
  {
    var limit := ClampLimit(raw);
    DigitCountIsLength(limit);
    DigitCountMonotonic(limit, MaxLimit);
    ParseIntDigits(NatToString(limit));
    NatToStringValue(limit);
  }

  /**
    A limit written with more digits than int() reads is rejected like any
    other bad value, so the default applies, not the cap of 50.
   */
  lemma ClampLimitTooManyDigits(s: string)
    requires |s| > MaxStrDigits && AllDigits(s)
    ensures ClampLimit(Some(s)) == DefaultLimit
  {
    ParseIntDigits(s);
  }

  /** The errors the update handlers raise; a NotFound names the id that was looked up. */
  datatype ApiError =
    | Invalid(field: string, message: string)
    | NotFound(id: int)
    | ServerError

  const EmptyListMessage: string := "Payload list cannot be empty."
  const NotAnObjectMessage: string := "Payload must be an object or list of objects."
  const IdRequiredMessage: string := "Material id is required for updates."

  /** _normalize_payload: a non-empty list as it is, an object as a list of one, anything else rejected. */
  function NormalizePayload(payload: Value): (r: Result<seq<Value>, ApiError>)
    ensures r.Ok? ==> |r.value| >= 1
    ensures r.Ok? <==> (payload.List? && payload.items != []) || payload.Dict?
    ensures payload.List? && payload.items != [] ==> r == Ok(payload.items)
    ensures payload.Dict? ==> r == Ok([payload])
    ensures payload == List([]) ==> r == Err(Invalid("detail", EmptyListMessage))
    ensures !payload.List? && !payload.Dict? ==> r == Err(Invalid("detail", NotAnObjectMessage))
  {
    match payload
    case List(items) =>
      if items == [] then Err(Invalid("detail", EmptyListMessage)) else Ok(items)
    case Dict(_) => Ok([payload])
    case _ => Err(Invalid("detail", NotAnObjectMessage))
  }

  /** record.get('id') when the record is an object, else None. */
  function MaterialId(record: Value): Value
  {
    if record.Dict? then Get(record.fields, "id") else Null
  }

  /** int(x) for a float: the integer part, rounding toward zero. */
  function Truncate(r: real): int
  {
    if r >= 0.0 then r.Floor else 0 - (0.0 - r).Floor
  }

  /**
    The primary key Material.objects.get(pk=...) looks up: an integer as it is,
    True as 1, a float cut toward zero, a string through int(); None where
    the lookup raises instead of finding nothing.
   */
  function LookupKey(v: Value): (k: Option<int>)
    ensures v.Int? ==> k == Some(v.i)
    ensures v.Str? ==> k == ParseInt(v.s)
  {
    match v
    case Int(i) => Some(i)
    case Bool(b) => Some(if b then 1 else 0)
    case Num(r) => Some(Truncate(r))
    case Str(s) => ParseInt(s)
    case _ => None
  }

  /**
    Ids that stand for the same integer pick the same row: the decimal text
    of n and n itself, True and 1, False and 0, a whole float and its integer.
    Decimal text longer than int() reads makes the lookup raise instead.
   */
  lemma LookupKeyAgrees(n: int, b: bool)
    ensures n >= 0 ==>
      LookupKey(Str(NatToString(n))) == if |NatToString(n)| <= MaxStrDigits then LookupKey(Int(n)) else None
    ensures LookupKey(Bool(b)) == LookupKey(Int(if b then 1 else 0))
    ensures LookupKey(Num(n as real)) == LookupKey(Int(n))
  {
    if n >= 0 {
      ParseIntDigits(NatToString(n));
      NatToStringValue(n);
    }
    assert Truncate(n as real) == n by {
      if n < 0 {
        assert (0.0 - n as real).Floor == 0 - n;
      }
    }
  }

  /** A float id is cut toward zero: to the integer at most as far from zero as it is, by less than one. */
  lemma TruncateTowardZero(r: real)
    ensures r >= 0.0 ==> 0 <= Truncate(r) && Truncate(r) as real <= r < Truncate(r) as real + 1.0
    ensures r < 0.0 ==> Truncate(r) <= 0 && Truncate(r) as real - 1.0 < r <= Truncate(r) as real
  {
  }

  /**
    The id check of _update_material: a record without a truthy id is
    rejected, an id with no stored material is not found.
   */
  function UpdateTarget(record: Value, stored: set<int>): (r: Result<int, ApiError>)
    ensures r == Err(Invalid("id", IdRequiredMessage)) <==> !Truthy(MaterialId(record))
    ensures r.Ok? <==>
      Truthy(MaterialId(record)) && LookupKey(MaterialId(record)).Some? && LookupKey(MaterialId(record)).value in stored
    ensures r.Ok? ==> r.value in stored && Some(r.value) == LookupKey(MaterialId(record))
    ensures r.Err? && r.error.NotFound? ==> r.error.id !in stored
  {
    var id := MaterialId(record);
    if !Truthy(id) then Err(Invalid("id", IdRequiredMessage))
    else match LookupKey(id)
      case None => Err(ServerError)
      case Some(k) => if k in stored then Ok(k) else Err(NotFound(k))
  }

  /**
    The list comprehension of put and patch: each record in turn picks its
    material; the first record that fails stops the request with its error.
   */
  function UpdateTargets(records: seq<Value>, stored: set<int>): (r: Result<seq<int>, ApiError>)
    ensures r.Ok? <==> forall i :: 0 <= i < |records| ==> UpdateTarget(records[i], stored).Ok?
    ensures r.Ok? ==>
      && |r.value| == |records|
      && forall i :: 0 <= i < |records| ==> r.value[i] == UpdateTarget(records[i], stored).value
    ensures r.Err? ==>
      exists k :: 0 <= k < |records|
        && (forall i :: 0 <= i < k ==> UpdateTarget(records[i], stored).Ok?)
        && UpdateTarget(records[k], stored) == Err(r.error)
  {
    if records == [] then Ok([])
    else
      match UpdateTarget(records[0], stored)
      case Err(e) => Err(e)
      case Ok(k) =>
        var rest := UpdateTargets(records[1..], stored);
        if rest.Err? then
          assert forall i :: 1 <= i < |records| ==> records[i] == records[1..][i - 1];
          Err(rest.error)
        else
          Ok([k] + rest.value)
  }

  /** put/patch up to the serializer: normalise the payload, then check every record. */
  function UpdateMaterials(payload: Value, stored: set<int>): (r: Result<seq<int>, ApiError>)
    ensures r.Ok? ==> |r.value| >= 1 && forall i :: 0 <= i < |r.value| ==> r.value[i] in stored
    ensures payload.Dict? && UpdateTarget(payload, stored).Ok? ==> r == Ok([UpdateTarget(payload, stored).value])
    ensures payload.Dict? && UpdateTarget(payload, stored).Err? ==> r == Err(UpdateTarget(payload, stored).error)
  {
    match NormalizePayload(payload)
    case Err(e) => Err(e)
    case Ok(records) =>
      var r := UpdateTargets(records, stored);
      assert r.Ok? && |records| == 1 ==> r.value == [r.value[0]];
      r
  }
}
