/** Resolution of a coordinate's cadastral record into a parcel number
    (fetchAblData) and the check that the parcel still exists (verifyProperty).
    Each upstream GET is given as the way its fetchWithRetries call ended: the
    primary record, the sub-units record fetched with `&ph`, and the debt-probe
    body. A function reads only the inputs its branch fetches. */
module Parcels {
  import opened JsValues
  import opened Retry

  /** One entry of the `phs` array: its properties by name. */
  type Entry = map<string, Scalar>

  /** Property `key` of an entry; `undefined` when it is not there. */
  function Property(e: Entry, key: string): Scalar {
    if key in e then e[key] else Undefined
  }

  /** The `phs` property of a record: absent (or null), or an array of entries. */
  datatype Phs = NoPhs | PhsArray(entries: seq<Entry>)

  /** The fields of a cadastral record that the program reads. */
  datatype Parcel = Parcel(propiedadHorizontal: Scalar, pdamatriz: Scalar, phs: Phs)

  /** `response.data` of a cadastral reply: a falsy value, or a record. */
  datatype Data = Falsy | Record(parcel: Parcel)

  /** `response.data` of the debt probe: a string, an array (which has an
      `includes` of its own), or any other value (null, a number, an object),
      on which calling `.includes` raises a TypeError. */
  datatype ProbeData = Text(body: string) | ArrayBody(items: seq<Scalar>) | OtherBody

  /** What the functions throw: the transport's error after its last attempt,
      or a TypeError raised by a property read. */
  datatype Error =
    | Transport(cause: string)
    | DataOfUndefined       // `response.data` where fetchWithRetries resolved to undefined
    | IncludesNotAFunction  // `debtResponse.data.includes(...)` where the body has no `includes`

  datatype Result<T> = Ok(value: T) | Thrown(error: Error)

  /** The object verifyProperty resolves to. */
  datatype Verification =
    | ExistsHorizontal(phs: seq<Entry>)   // { message: 'La partida existe', phs }
    | ExistsMatrix(pdamatriz: Scalar)     // { message: 'La partida existe', pdamatriz }
    | DoesNotExist                        // { message: 'La partida no existe' }
    | Unexpected                          // { error: 'Respuesta vacía ...' }

  /** One mapped sub-unit: `{ pdahorizontal, piso, dpto }`. */
  datatype SubUnit = SubUnit(pdahorizontal: Scalar, piso: Scalar, dpto: Scalar)

  /** What fetchAblData resolves to: the matrix number, the sub-units, or null. */
  datatype Resolution = Matrix(pdamatriz: Scalar) | Units(units: seq<SubUnit>) | NullResult

  const EXISTS_MESSAGE := "La partida existe"
  const MISSING_MESSAGE := "La partida no existe"
  const UNEXPECTED_ERROR := "Respuesta vacía o sin formato esperado en la verificación."

  /** The negative marker looked for in the debt-probe body. */
  const STATUS_CODE_402 := "\"statusCode\":402"

  /** The horizontal-property flag: strict equality with the string "Si", so
      the flag is truthy, and no value of another type (a boolean `true`, say)
      is coerced into it. */
  predicate IsHorizontal(p: Parcel): (b: bool)
    ensures b ==> Truthy(p.propiedadHorizontal)
    ensures !p.propiedadHorizontal.Str? ==> !b
  {
    p.propiedadHorizontal == Str("Si")
  }

  /** `response.data` of a fetchWithRetries call, or what reading it throws. */
  function DataOf<T>(c: Completion<T, Error>): (r: Result<T>)
    ensures r.Ok? <==> c.Returned?
    ensures c.Threw? ==> r == Thrown(c.error)
    ensures c.ReturnedUndefined? ==> r == Thrown(DataOfUndefined)
  {
    match c
    case Returned(d) => Ok(d)
    case Threw(e) => Thrown(e)
    case ReturnedUndefined => Thrown(DataOfUndefined)
  }

  /** The sub-unit array of a `&ph` reply when it is present and non-empty. */
  predicate HasUnits(d: Data): (b: bool)
    ensures b <==> d.Record? && d.parcel.phs != NoPhs && d.parcel.phs != PhsArray([])
  {
    d.Record? && d.parcel.phs.PhsArray? && |d.parcel.phs.entries| > 0
  }

  /** `debtResponse.data.includes('"statusCode":402')`: a substring search in
      a string body, an element search in an array body, a TypeError otherwise. */
  function MarkerIn(d: ProbeData): (r: Result<bool>)
    ensures r.Thrown? <==> d.OtherBody?
    ensures r.Thrown? ==> r.error == IncludesNotAFunction
    ensures d.Text? ==> (r == Ok(true) <==> exists i: nat :: OccursAt(d.body, STATUS_CODE_402, i))
    ensures d.ArrayBody? ==> (r == Ok(true) <==> exists i :: 0 <= i < |d.items| && d.items[i] == Str(STATUS_CODE_402))
  {
    match d
    case Text(body) =>
      IncludesIsSubstring(body, STATUS_CODE_402);
      Ok(Includes(body, STATUS_CODE_402))
    case ArrayBody(items) => Ok(Str(STATUS_CODE_402) in items)
    case OtherBody => Thrown(IncludesNotAFunction)
  }

  /** verifyProperty. Whatever it throws is a fetch's error, or a TypeError of
      a property read; it makes up no error of its own. */
  function VerifyProperty(
    primary: Completion<Data, Error>,
    subUnits: Completion<Data, Error>,
    probe: Completion<ProbeData, Error>): (r: Result<Verification>)
    ensures r.Thrown? ==>
      || (primary.Threw? && r.error == primary.error)
      || (subUnits.Threw? && r.error == subUnits.error)
      || (probe.Threw? && r.error == probe.error)
      || r.error == DataOfUndefined || r.error == IncludesNotAFunction
  {
    match DataOf<Data>(primary)
    case Thrown(e) => Thrown(e)
    case Ok(Falsy) => Ok(Unexpected)
    case Ok(Record(p)) =>
      if IsHorizontal(p) then
        match DataOf<Data>(subUnits)
        case Thrown(e) => Thrown(e)
        case Ok(d) => if HasUnits(d) then Ok(ExistsHorizontal(d.parcel.phs.entries)) else Ok(DoesNotExist)
      else if Truthy(p.pdamatriz) then
        match DataOf<ProbeData>(probe)
        case Thrown(e) => Thrown(e)
        case Ok(body) =>
          match MarkerIn(body)
          case Thrown(e) => Thrown(e)
          case Ok(found) => if found then Ok(DoesNotExist) else Ok(ExistsMatrix(p.pdamatriz))
      else Ok(DoesNotExist)
  }

  /** The `message` (or, for Unexpected, the `error`) text of a verification. */
  function Message(v: Verification): (m: string)
    ensures m == EXISTS_MESSAGE <==> v.ExistsHorizontal? || v.ExistsMatrix?
    ensures m == MISSING_MESSAGE <==> v.DoesNotExist?
  {
    match v
    case ExistsHorizontal(_) => EXISTS_MESSAGE
    case ExistsMatrix(_) => EXISTS_MESSAGE
    case DoesNotExist => MISSING_MESSAGE
    case Unexpected => UNEXPECTED_ERROR
  }

  /** One `phs` entry mapped to `{ pdahorizontal, piso, dpto }`. */
  function Project(e: Entry): (u: SubUnit)
    ensures "pdahorizontal" in e ==> u.pdahorizontal == e["pdahorizontal"]
    ensures "piso" in e ==> u.piso == e["piso"]
    ensures "dpto" in e ==> u.dpto == e["dpto"]
    ensures "pdahorizontal" !in e ==> u.pdahorizontal == Undefined
    ensures "piso" !in e ==> u.piso == Undefined
    ensures "dpto" !in e ==> u.dpto == Undefined
  {
    SubUnit(Property(e, "pdahorizontal"), Property(e, "piso"), Property(e, "dpto"))
  }

  /** `phs.map(...)`: every entry projected, in order. */
  function ProjectAll(entries: seq<Entry>): (units: seq<SubUnit>)
    ensures |units| == |entries|
    ensures forall i :: 0 <= i < |entries| ==> units[i] == Project(entries[i])
  {
    if entries == [] then [] else [Project(entries[0])] + ProjectAll(entries[1..])
  }

  /** fetchAblData. A matrix number it resolves to is always truthy, so the
      handler emails it; its errors are those of the two fetches, or the
      TypeError of reading `.data` of undefined. */
  function FetchAblData(primary: Completion<Data, Error>, subUnits: Completion<Data, Error>): (r: Result<Resolution>)
    ensures r.Ok? && r.value.Matrix? ==> Truthy(r.value.pdamatriz)
    ensures r.Thrown? ==>
      || (primary.Threw? && r.error == primary.error)
      || (subUnits.Threw? && r.error == subUnits.error)
      || r.error == DataOfUndefined
  {
    match DataOf<Data>(primary)
    case Thrown(e) => Thrown(e)
    case Ok(Falsy) => Ok(NullResult)
    case Ok(Record(p)) =>
      if IsHorizontal(p) then
        match DataOf<Data>(subUnits)
        case Thrown(e) => Thrown(e)
        case Ok(d) =>
          if d.Record? && d.parcel.phs.PhsArray? then Ok(Units(ProjectAll(d.parcel.phs.entries))) else Ok(NullResult)
      else if Truthy(p.pdamatriz) then Ok(Matrix(p.pdamatriz))
      else Ok(NullResult)
  }

  /** The truthiness of a resolution, which decides whether the handler sends
      the email: an array is truthy even when empty, null never is. */
  predicate Resolved(r: Resolution): (b: bool)
    ensures r.Units? ==> b
    ensures r.NullResult? ==> !b
    ensures r.Matrix? ==> (b <==> Truthy(r.pdamatriz))
  {
    match r
    case Matrix(v) => Truthy(v)
    case Units(_) => true
    case NullResult => false
  }

  /** The handler sends an email exactly when fetchAblData resolves to a
      matrix number or to a list of sub-units, even an empty one. */
  lemma SendsEmailIffResolved(primary: Completion<Data, Error>, subUnits: Completion<Data, Error>)
    ensures var r := FetchAblData(primary, subUnits);
      r.Ok? && Resolved(r.value) <==> r.Ok? && (r.value.Matrix? || r.value.Units?)
  {
  }

  /** The lookups a call makes, each one fetchWithRetries call of up to five
      GETs: the cadastral record, the same record with `&ph`, the debt
      statement. */
  datatype Lookup = Primary | SubUnitsLookup | DebtProbe

  /** verifyProperty with its fetches made in order over scripted transports;
      `lookups` lists its fetchWithRetries calls, each of up to five GETs. The
      record is fetched once, then `&ph` for a horizontal record or the debt
      probe for a truthy `pdamatriz`, and nothing more. */
  method VerifyPropertyVia(primary: nat -> Attempt<Data, Error>, subUnits: nat -> Attempt<Data, Error>,
                           probe: nat -> Attempt<ProbeData, Error>)
    returns (r: Result<Verification>, lookups: seq<Lookup>)
    ensures r == VerifyProperty(Retried(primary, DEFAULT_MAX_RETRIES), Retried(subUnits, DEFAULT_MAX_RETRIES),
                                Retried(probe, DEFAULT_MAX_RETRIES))
    ensures var d := Retried(primary, DEFAULT_MAX_RETRIES);
      lookups == [Primary] +
        (if d.Returned? && d.response.Record? && IsHorizontal(d.response.parcel) then [SubUnitsLookup]
         else if d.Returned? && d.response.Record? && Truthy(d.response.parcel.pdamatriz) then [DebtProbe]
         else [])
    ensures var d := Retried(primary, DEFAULT_MAX_RETRIES);
      && (SubUnitsLookup in lookups <==> d.Returned? && d.response.Record? && IsHorizontal(d.response.parcel))
      && (DebtProbe in lookups <==>
            d.Returned? && d.response.Record? && !IsHorizontal(d.response.parcel) && Truthy(d.response.parcel.pdamatriz))
  {
    lookups := [Primary];
    var response, _ := FetchWithRetries(primary, DEFAULT_MAX_RETRIES);
    match DataOf<Data>(response)
    case Thrown(e) =>
      r := Thrown(e);
    case Ok(Falsy) =>
      r := Ok(Unexpected);
    case Ok(Record(p)) =>
      if IsHorizontal(p) {
        lookups := lookups + [SubUnitsLookup];
        var units, _ := FetchWithRetries(subUnits, DEFAULT_MAX_RETRIES);
        match DataOf<Data>(units)
        case Thrown(e) =>
          r := Thrown(e);
        case Ok(d) =>
          r := if HasUnits(d) then Ok(ExistsHorizontal(d.parcel.phs.entries)) else Ok(DoesNotExist);
      } else if Truthy(p.pdamatriz) {
        lookups := lookups + [DebtProbe];
        var debt, _ := FetchWithRetries(probe, DEFAULT_MAX_RETRIES);
        match DataOf<ProbeData>(debt)
        case Thrown(e) =>
          r := Thrown(e);
        case Ok(body) =>
          match MarkerIn(body)
          case Thrown(e) =>
            r := Thrown(e);
          case Ok(found) =>
            r := if found then Ok(DoesNotExist) else Ok(ExistsMatrix(p.pdamatriz));
      } else {
        r := Ok(DoesNotExist);
      }
  }

  /** fetchAblData with its fetches made in order: the record once, then
      `&ph` for a horizontal record; it never probes the debt statement. */
  method FetchAblDataVia(primary: nat -> Attempt<Data, Error>, subUnits: nat -> Attempt<Data, Error>)
    returns (r: Result<Resolution>, lookups: seq<Lookup>)
    ensures r == FetchAblData(Retried(primary, DEFAULT_MAX_RETRIES), Retried(subUnits, DEFAULT_MAX_RETRIES))
    ensures var d := Retried(primary, DEFAULT_MAX_RETRIES);
      lookups == [Primary] + (if d.Returned? && d.response.Record? && IsHorizontal(d.response.parcel) then [SubUnitsLookup] else [])
    ensures DebtProbe !in lookups
    ensures var d := Retried(primary, DEFAULT_MAX_RETRIES);
      SubUnitsLookup in lookups <==> d.Returned? && d.response.Record? && IsHorizontal(d.response.parcel)
  {
    lookups := [Primary];
    var response, _ := FetchWithRetries(primary, DEFAULT_MAX_RETRIES);
    match DataOf<Data>(response)
    case Thrown(e) =>
      r := Thrown(e);
    case Ok(Falsy) =>
      r := Ok(NullResult);
    case Ok(Record(p)) =>
      if IsHorizontal(p) {
        lookups := lookups + [SubUnitsLookup];
        var units, _ := FetchWithRetries(subUnits, DEFAULT_MAX_RETRIES);
        match DataOf<Data>(units)
        case Thrown(e) =>
          r := Thrown(e);
        case Ok(d) =>
          r := if d.Record? && d.parcel.phs.PhsArray? then Ok(Units(ProjectAll(d.parcel.phs.entries))) else Ok(NullResult);
      } else if Truthy(p.pdamatriz) {
        r := Ok(Matrix(p.pdamatriz));
      } else {
        r := Ok(NullResult);
      }
  }

  // ---------------------------------------------------------------------------
  // verifyProperty

  /** The horizontal test comes first: a horizontal record takes that branch
      whatever its `pdamatriz`, and then the debt probe is never read. */
  lemma VerifyHorizontalFirst(p: Parcel, m: Scalar, subUnits: Completion<Data, Error>,
                              probe: Completion<ProbeData, Error>, probe': Completion<ProbeData, Error>)
    requires IsHorizontal(p)
    ensures VerifyProperty(Returned(Record(p)), subUnits, probe)
         == VerifyProperty(Returned(Record(p.(pdamatriz := m))), subUnits, probe')
  {
  }

  /** Only the exact string "Si" marks a horizontal record: with any other flag
      the sub-units reply is never read. */
  lemma VerifyFlagMustBeSi(p: Parcel, subUnits: Completion<Data, Error>, subUnits': Completion<Data, Error>,
                           probe: Completion<ProbeData, Error>)
    requires p.propiedadHorizontal != Str("Si")
    ensures VerifyProperty(Returned(Record(p)), subUnits, probe)
         == VerifyProperty(Returned(Record(p)), subUnits', probe)
  {
  }

  /** Horizontal case: the parcel exists, with the `phs` array passed through
      unchanged, exactly when that array is present and non-empty; otherwise
      it does not exist. A failed sub-units fetch is rethrown. */
  lemma VerifyHorizontal(p: Parcel, subUnits: Completion<Data, Error>, probe: Completion<ProbeData, Error>)
    requires IsHorizontal(p)
    ensures var r := VerifyProperty(Returned(Record(p)), subUnits, probe);
      && (subUnits.Returned? ==>
            && (r.Ok? && r.value.ExistsHorizontal? <==> HasUnits(subUnits.response))
            && (HasUnits(subUnits.response) ==> r == Ok(ExistsHorizontal(subUnits.response.parcel.phs.entries)))
            && (!HasUnits(subUnits.response) ==> r == Ok(DoesNotExist)))
      && (subUnits.Threw? ==> r == Thrown(subUnits.error))
  {
  }

  /** Matrix case: the probe body decides. A body containing `"statusCode":402`
      means the parcel does not exist; any other string body means it exists,
      reported with the same `pdamatriz`. */
  lemma VerifyMatrix(p: Parcel, subUnits: Completion<Data, Error>, body: string)
    requires !IsHorizontal(p) && Truthy(p.pdamatriz)
    ensures var r := VerifyProperty(Returned(Record(p)), subUnits, Returned(Text(body)));
      && (r == Ok(DoesNotExist) <==> exists i: nat :: OccursAt(body, STATUS_CODE_402, i))
      && (r != Ok(DoesNotExist) <==> r == Ok(ExistsMatrix(p.pdamatriz)))
  {
    IncludesIsSubstring(body, STATUS_CODE_402);
  }

  /** An array body is searched element by element: the parcel does not exist
      exactly when one element is the marker string itself, and an empty array
      means it exists. */
  lemma VerifyMatrixArrayBody(p: Parcel, subUnits: Completion<Data, Error>, items: seq<Scalar>)
    requires !IsHorizontal(p) && Truthy(p.pdamatriz)
    ensures var r := VerifyProperty(Returned(Record(p)), subUnits, Returned(ArrayBody(items)));
      && (r == Ok(DoesNotExist) <==> exists i :: 0 <= i < |items| && items[i] == Str(STATUS_CODE_402))
      && (r != Ok(DoesNotExist) <==> r == Ok(ExistsMatrix(p.pdamatriz)))
  {
  }

  /** A body that is neither a string nor an array has no `includes`: the
      call throws a TypeError. */
  lemma VerifyMatrixOtherBody(p: Parcel, subUnits: Completion<Data, Error>)
    requires !IsHorizontal(p) && Truthy(p.pdamatriz)
    ensures VerifyProperty(Returned(Record(p)), subUnits, Returned(OtherBody)) == Thrown(IncludesNotAFunction)
  {
  }

  /** A record with neither the horizontal flag nor a truthy `pdamatriz` (an
      empty string counts as absent) does not exist, and nothing more is read. */
  lemma VerifyNeitherFlagNorMatrix(p: Parcel, subUnits: Completion<Data, Error>, probe: Completion<ProbeData, Error>)
    requires !IsHorizontal(p) && !Truthy(p.pdamatriz)
    ensures VerifyProperty(Returned(Record(p)), subUnits, probe) == Ok(DoesNotExist)
  {
  }

  /** Falsy primary data is reported as an error object, neither exists nor
      does-not-exist. */
  lemma VerifyEmptyData(subUnits: Completion<Data, Error>, probe: Completion<ProbeData, Error>)
    ensures VerifyProperty(Returned(Falsy), subUnits, probe) == Ok(Unexpected)
  {
  }

  /** No failed fetch becomes an answer: a failure of the primary fetch, or of
      the one fetch its branch makes, is rethrown as it is. */
  lemma VerifyRethrowsFetchErrors(primary: Completion<Data, Error>, subUnits: Completion<Data, Error>,
                                  probe: Completion<ProbeData, Error>)
    ensures var r := VerifyProperty(primary, subUnits, probe);
      && (primary.Threw? ==> r == Thrown(primary.error))
      && (primary.Returned? && primary.response.Record? ==>
            var p := primary.response.parcel;
            && (IsHorizontal(p) && subUnits.Threw? ==> r == Thrown(subUnits.error))
            && (!IsHorizontal(p) && Truthy(p.pdamatriz) && probe.Threw? ==> r == Thrown(probe.error)))
  {
  }

  /** Every answer rests on fetched data: "exists" or "does not exist" needs a
      returned primary record and, in its branch, a returned sub-units reply or
      a returned string probe body. */
  lemma VerifyAnswerNeedsFetchedData(primary: Completion<Data, Error>, subUnits: Completion<Data, Error>,
                                     probe: Completion<ProbeData, Error>)
    requires var r := VerifyProperty(primary, subUnits, probe); r.Ok? && !r.value.Unexpected?
    ensures primary.Returned? && primary.response.Record?
    ensures var p := primary.response.parcel;
      && (IsHorizontal(p) ==> subUnits.Returned?)
      && (!IsHorizontal(p) && Truthy(p.pdamatriz) ==> probe.Returned? && !probe.response.OtherBody?)
  {
  }

  /** With the default bound, a primary fetch whose every attempt fails makes
      the verification throw the last attempt's error; it never reads as
      "does not exist". */
  lemma VerifyPersistentOutage(transport: nat -> Attempt<Data, Error>, subUnits: Completion<Data, Error>,
                               probe: Completion<ProbeData, Error>)
    requires forall j :: 0 <= j < DEFAULT_MAX_RETRIES ==> transport(j).Failure?
    ensures VerifyProperty(Retried(transport, DEFAULT_MAX_RETRIES), subUnits, probe)
         == Thrown(transport(DEFAULT_MAX_RETRIES - 1).error)
  {
  }

  // ---------------------------------------------------------------------------
  // fetchAblData

  /** Horizontal with a `phs` array: the sub-units, one per entry, in order,
      each copying `pdahorizontal`, `piso` and `dpto` (an empty array gives an
      empty list). Horizontal without one: null. */
  lemma AblHorizontal(p: Parcel, d: Data)
    requires IsHorizontal(p)
    ensures var r := FetchAblData(Returned(Record(p)), Returned(d));
      && (d.Record? && d.parcel.phs.PhsArray? ==>
            var entries := d.parcel.phs.entries;
            && r.Ok? && r.value.Units?
            && |r.value.units| == |entries|
            && forall i :: 0 <= i < |entries| ==>
                 && r.value.units[i].pdahorizontal == Property(entries[i], "pdahorizontal")
                 && r.value.units[i].piso == Property(entries[i], "piso")
                 && r.value.units[i].dpto == Property(entries[i], "dpto"))
      && (!(d.Record? && d.parcel.phs.PhsArray?) ==> r == Ok(NullResult))
  {
  }

  /** Non-horizontal with a truthy `pdamatriz`: that value, verbatim, whatever
      else the record holds. Otherwise: null. */
  lemma AblMatrix(p: Parcel, subUnits: Completion<Data, Error>)
    requires !IsHorizontal(p)
    ensures Truthy(p.pdamatriz) ==> FetchAblData(Returned(Record(p)), subUnits) == Ok(Matrix(p.pdamatriz))
    ensures !Truthy(p.pdamatriz) ==> FetchAblData(Returned(Record(p)), subUnits) == Ok(NullResult)
  {
  }

  /** The horizontal test comes first here too. */
  lemma AblHorizontalFirst(p: Parcel, m: Scalar, subUnits: Completion<Data, Error>)
    requires IsHorizontal(p)
    ensures FetchAblData(Returned(Record(p)), subUnits) == FetchAblData(Returned(Record(p.(pdamatriz := m))), subUnits)
    ensures FetchAblData(Returned(Record(p)), subUnits) != Ok(Matrix(m))
  {
  }

  /** Falsy primary data resolves to null; fetch failures are rethrown. */
  lemma AblEmptyOrFailed(primary: Completion<Data, Error>, subUnits: Completion<Data, Error>)
    ensures primary == Returned(Falsy) ==> FetchAblData(primary, subUnits) == Ok(NullResult)
    ensures primary.Threw? ==> FetchAblData(primary, subUnits) == Thrown(primary.error)
    ensures primary.Returned? && primary.response.Record? && IsHorizontal(primary.response.parcel) && subUnits.Threw?
            ==> FetchAblData(primary, subUnits) == Thrown(subUnits.error)
  {
  }

  // ---------------------------------------------------------------------------
  // The two functions side by side

  /** On the same replies the two functions agree on a horizontal record with
      sub-units: fetchAblData lists exactly the entries verifyProperty reports. */
  lemma ResolverAgreesWithVerifierOnUnits(primary: Completion<Data, Error>, subUnits: Completion<Data, Error>,
                                          probe: Completion<ProbeData, Error>)
    ensures var v := VerifyProperty(primary, subUnits, probe);
            var a := FetchAblData(primary, subUnits);
      && (v.Ok? && v.value.ExistsHorizontal? <==> a.Ok? && a.value.Units? && |a.value.units| > 0)
      && (v.Ok? && v.value.ExistsHorizontal? ==> a == Ok(Units(ProjectAll(v.value.phs))))
  {
  }

  /** verifyProperty reports a matrix number as existing only when
      fetchAblData resolves to that number; conversely, once fetchAblData gives
      a matrix number, verifyProperty reports it as existing, as not existing,
      or throws, and it reports it as existing when the probe body lacks the
      marker. */
  lemma ResolverAgreesWithVerifierOnMatrix(primary: Completion<Data, Error>, subUnits: Completion<Data, Error>,
                                           probe: Completion<ProbeData, Error>, m: Scalar)
    ensures VerifyProperty(primary, subUnits, probe) == Ok(ExistsMatrix(m))
            ==> FetchAblData(primary, subUnits) == Ok(Matrix(m))
    ensures FetchAblData(primary, subUnits) == Ok(Matrix(m)) ==>
      var v := VerifyProperty(primary, subUnits, probe);
      v == Ok(ExistsMatrix(m)) || v == Ok(DoesNotExist) || v.Thrown?
    ensures FetchAblData(primary, subUnits) == Ok(Matrix(m)) && probe.Returned? && MarkerIn(probe.response) == Ok(false)
            ==> VerifyProperty(primary, subUnits, probe) == Ok(ExistsMatrix(m))
  {
  }

  /** The one place they part: a horizontal record whose `phs` array is empty
      does not exist for verifyProperty, yet fetchAblData resolves it to an
      empty list, which the handler takes as success and emails. */
  lemma EmptyPhsDisagreement(p: Parcel, q: Parcel, probe: Completion<ProbeData, Error>)
    requires IsHorizontal(p) && q.phs == PhsArray([])
    ensures VerifyProperty(Returned(Record(p)), Returned(Record(q)), probe) == Ok(DoesNotExist)
    ensures FetchAblData(Returned(Record(p)), Returned(Record(q))) == Ok(Units([]))
    ensures Resolved(Units([]))
  {
  }
}
