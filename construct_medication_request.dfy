// Translation of one OMOP drug-exposure row into a FHIR MedicationRequest.
// The row is a parsed JSON object; the name-based UUID of the patient is a
// function handed in by the caller.

module MedicationRequest {

  import opened Text
  import opened Json

  // ---------------------------------------------------------------------
  // Python's int() on a JSON value

  /** `int(j)`: an int is itself, a bool 0 or 1, a string parsed; None, a
      list and a dict raise TypeError. */
  function IntOf(j: Json): (r: Result<int>)
    ensures r.Err? ==> (r.error.ValueError? <==> j.Str?)
  {
    match j
    case Int(i) => Ok(i)
    case Bool(b) => Ok(if b then 1 else 0)
    case Str(s) =>
      (match ParseInt(s)
       case Some(n) => Ok(n)
       case None => Err(ValueError("invalid literal for int() with base 10")))
    case _ => Err(TypeError("int() argument"))
  }

  /** `is_int(num)`: whether `int(num)` succeeds; only ValueError is caught,
      so a TypeError still propagates. */
  function IsInt(j: Json): (r: Result<bool>)
    ensures r == Ok(true) <==> IntOf(j).Ok?
    ensures r == Ok(false) <==> IntOf(j).Err? && IntOf(j).error.ValueError?
    ensures r.Err? <==> IntOf(j).Err? && IntOf(j).error.TypeError?
    ensures r.Err? ==> r.error == IntOf(j).error
  {
    match IntOf(j)
    case Ok(_) => Ok(true)
    case Err(e) => if e.ValueError? then Ok(false) else Err(e)
  }

  // ---------------------------------------------------------------------
  // The pieces of the request

  /** `k in row and row[k] is not None` */
  predicate Present(row: Fields, k: string)
  {
    Has(row, k) && At(row, k) != Null
  }

  /** The guard of lines 34-39, as written: the fourth test asks for the key
      `quanitity` and then reads `quantity`. */
  function Qualifies(row: Fields): (r: Result<bool>)
    ensures r.Err? ==> r.error == KeyError("quantity")
  {
    if Present(row, "sig") || Present(row, "route_concept_id") || Present(row, "refills") then Ok(true)
    else if Has(row, "quanitity") && !Has(row, "quantity") then Err(KeyError("quantity"))
    else if Has(row, "quanitity") && At(row, "quantity") != Null then Ok(true)
    else Ok(Present(row, "days_supply") || Present(row, "verbatim_end_date"))
  }

  /** The guard as intended: any of the six fields set. */
  function QualifiesIntended(row: Fields): bool
  {
    Present(row, "sig") || Present(row, "route_concept_id") || Present(row, "refills")
    || Present(row, "quantity") || Present(row, "days_supply") || Present(row, "verbatim_end_date")
  }

  const TablesSystem: string := "https://redivis.com/datasets/ye2v-6skh7wdr7/tables"

  /** The dict every request starts from. */
  function Base(row: Fields, personUuid: string -> string): (r: Result<Fields>)
    ensures r.Ok? <==> Has(row, "drug_exposure_id") && Has(row, "person_id") && Has(row, "drug_concept_id")
  {
    var exposure :- Index(row, "drug_exposure_id");
    var person :- Index(row, "person_id");
    var concept :- Index(row, "drug_concept_id");
    Ok([("id", Str(Format(exposure))),
        ("identifier", Arr([Obj([("system", Str(TablesSystem)), ("value", Str("MedicationRequest/" + Format(exposure)))]),
                            Obj([("system", Str(TablesSystem)), ("value", Str("Patient/" + Format(person)))])])),
        ("resourceType", Str("MedicationRequest")),
        ("status", Str("stopped")),
        ("subject", Obj([("reference", Str("Patient/" + personUuid(Format(person))))])),
        ("intent", Str("order")),
        ("drug_concept_id", concept)])
  }

  /** A route coding with filler display, system and text. */
  function Route(code: Json): Json
  {
    Obj([("coding", Arr([Obj([("display", Str("filler")), ("code", code), ("system", Str("filler"))])])),
         ("text", Str("filler"))])
  }

  /** The single dosage instruction for a sig, a route, or both. */
  function Instruction(row: Fields, withSig: bool, withRoute: bool): Json
    requires withSig ==> Has(row, "sig")
    requires withRoute ==> Has(row, "route_concept_id")
  {
    Obj((if withSig then [("text", At(row, "sig"))] else [])
        + (if withRoute then [("route", Route(At(row, "route_concept_id")))] else []))
  }

  /** `dosageInstruction`, as written: with a sig and a `route_concept_id`
      key, the test of line 66 reads the key `rout_concept_id`. */
  function DosageAsWritten(row: Fields): (r: Result<Option<Json>>)
    ensures r.Err? ==> r.error == KeyError("rout_concept_id")
  {
    if !(Present(row, "sig") || Present(row, "route_concept_id")) then Ok(None)
    else if Present(row, "sig") && Has(row, "route_concept_id") && !Has(row, "rout_concept_id") then
      Err(KeyError("rout_concept_id"))
    else if Present(row, "sig") && Has(row, "route_concept_id") && At(row, "rout_concept_id") != Null then
      Ok(Some(Arr([Instruction(row, true, true)])))
    else if Present(row, "sig") then Ok(Some(Arr([Instruction(row, true, false)])))
    else Ok(Some(Arr([Instruction(row, false, true)])))
  }

  /** `dosageInstruction` as intended: the combined entry when both are set. */
  function Dosage(row: Fields): (r: Option<Json>)
  {
    if !(Present(row, "sig") || Present(row, "route_concept_id")) then None
    else Some(Arr([Instruction(row, Present(row, "sig"), Present(row, "route_concept_id"))]))
  }

  /** `dispenseRequest`, as written: the guard of line 93 has the same
      `quanitity` test as line 37; a refill count is converted and then
      stored into a `dispenseRequest` that does not exist yet; a quantity
      and a days supply each store a fresh dict, so the last one wins. */
  function DispenseAsWritten(row: Fields): (r: Result<Option<Json>>)
  {
    if !Present(row, "refills") && Has(row, "quanitity") && !Has(row, "quantity") then Err(KeyError("quantity"))
    else if !(Present(row, "refills") || (Has(row, "quanitity") && At(row, "quantity") != Null) || Present(row, "days_supply")) then
      Ok(None)
    else if Present(row, "refills") then
      var _ :- IntOf(At(row, "refills"));
      Err(KeyError("dispenseRequest"))
    else if Present(row, "days_supply") then
      Ok(Some(Obj([("expectedSupplyDuration", Obj([("value", At(row, "days_supply"))]))])))
    else if Present(row, "quantity") then Ok(Some(Obj([("quantity", At(row, "quantity"))])))
    else Ok(None)
  }

  /** `dispenseRequest` as intended: one dict holding each of the refill
      count, the quantity and the supply duration that the row sets. */
  function Dispense(row: Fields): (r: Result<Option<Json>>)
    ensures r.Err? ==> Present(row, "refills") && IntOf(At(row, "refills")).Err?
  {
    if !(Present(row, "refills") || Present(row, "quantity") || Present(row, "days_supply")) then Ok(None)
    else
      var refills :- if Present(row, "refills") then
                       var n :- IntOf(At(row, "refills"));
                       Ok([("numberOfRepeatsAllowed", Int(n))])
                     else Ok([]);
      Ok(Some(Obj(refills
                  + (if Present(row, "quantity") then [("quantity", At(row, "quantity"))] else [])
                  + (if Present(row, "days_supply") then [("expectedSupplyDuration", Obj([("value", At(row, "days_supply"))]))] else []))))
  }

  /** `requester`: the provider id in its integer form when `int()` reads
      it, as it is otherwise. */
  function Requester(row: Fields): (r: Result<Option<Json>>)
    ensures r.Err? ==> Present(row, "provider_id") && IntOf(At(row, "provider_id")).Err?
                       && IntOf(At(row, "provider_id")).error.TypeError?
  {
    if !Present(row, "provider_id") then Ok(None)
    else
      var p := At(row, "provider_id");
      var numeric :- IsInt(p);
      var shown := if numeric then IntToString(IntOf(p).value) else Format(p);
      Ok(Some(Arr([Obj([("reference", Str("Practitioner/" + shown))])])))
  }

  /** `validityPeriod` */
  function Validity(row: Fields): Option<Json>
  {
    if Present(row, "verbatim_end_date") then Some(Obj([("end", At(row, "verbatim_end_date"))])) else None
  }

  /** `out[k] = v` when there is a value. */
  function PutSome(f: Fields, k: string, v: Option<Json>): Fields
  {
    if v.Some? then Put(f, k, v.value) else f
  }

  /** The dict with the optional parts stored after the base ones. */
  function Assemble(base: Fields, dosage: Option<Json>, dispense: Option<Json>,
                    requester: Option<Json>, validity: Option<Json>): Fields
  {
    PutSome(PutSome(PutSome(PutSome(base, "dosageInstruction", dosage), "dispenseRequest", dispense),
                    "requester", requester), "validityPeriod", validity)
  }

  /** What `formulate_med_req(row)` returns or raises, as written. */
  function MedReqAsWritten(row: Fields, personUuid: string -> string): Result<Option<Fields>>
  {
    var qualifies :- Qualifies(row);
    if !qualifies then Ok(None)
    else
      var base :- Base(row, personUuid);
      var dosage :- DosageAsWritten(row);
      var dispense :- DispenseAsWritten(row);
      var requester :- Requester(row);
      Ok(Some(Assemble(base, dosage, dispense, requester, Validity(row))))
  }

  /** What `formulate_med_req(row)` evidently means to return: the guard and
      the dosage test read the right keys, and the dispense request
      collects all its fields. */
  function MedReq(row: Fields, personUuid: string -> string): Result<Option<Fields>>
  {
    if !QualifiesIntended(row) then Ok(None)
    else
      var base :- Base(row, personUuid);
      var dispense :- Dispense(row);
      var requester :- Requester(row);
      Ok(Some(Assemble(base, Dosage(row), dispense, requester, Validity(row))))
  }

  // ---------------------------------------------------------------------
  // formulate_med_req

  /** Lines 64-92: `dosageInstruction` is stored empty, then its entry
      appended. */
  method StoreDosage(row: Fields, out: Fields) returns (r: Result<Fields>)
    ensures DosageAsWritten(row).Err? ==> r == Err(DosageAsWritten(row).error)
    ensures DosageAsWritten(row).Ok? ==> r == Ok(PutSome(out, "dosageInstruction", DosageAsWritten(row).value))
  {
    var sig := Present(row, "sig");
    var route := Present(row, "route_concept_id");
    if !(sig || route) {
      return Ok(out);
    }
    var stored := Put(out, "dosageInstruction", Arr([]));
    var entry: Json;
    if sig && Has(row, "route_concept_id") && !Has(row, "rout_concept_id") {
      return Err(KeyError("rout_concept_id"));
    } else if sig && Has(row, "route_concept_id") && At(row, "rout_concept_id") != Null {
      entry := Instruction(row, true, true);
    } else if sig {
      entry := Instruction(row, true, false);
    } else {
      entry := Instruction(row, false, true);
    }
    var instructions := At(stored, "dosageInstruction").items + [entry];
    assert instructions == [entry];
    PutTwice(out, "dosageInstruction", Arr([]), Arr(instructions));
    return Ok(Put(stored, "dosageInstruction", Arr(instructions)));
  }

  /** Lines 93-101: the refill count is stored into a `dispenseRequest` that
      is not there, and a quantity or a days supply each replace it. */
  method StoreDispense(row: Fields, out: Fields) returns (r: Result<Fields>)
    ensures DispenseAsWritten(row).Err? ==> r == Err(DispenseAsWritten(row).error)
    ensures DispenseAsWritten(row).Ok? ==> r == Ok(PutSome(out, "dispenseRequest", DispenseAsWritten(row).value))
  {
    if !Present(row, "refills") && Has(row, "quanitity") && !Has(row, "quantity") {
      return Err(KeyError("quantity"));
    }
    if !(Present(row, "refills") || (Has(row, "quanitity") && At(row, "quantity") != Null) || Present(row, "days_supply")) {
      return Ok(out);
    }
    if Present(row, "refills") {
      var _ :- IntOf(At(row, "refills"));
      // `out` has no "dispenseRequest" to store the count into
      return Err(KeyError("dispenseRequest"));
    }
    r := Ok(out);
    if Present(row, "quantity") {
      var request := Obj(Put([], "quantity", At(row, "quantity")));
      PutEmpty("quantity", At(row, "quantity"));
      PutTwice(out, "dispenseRequest", Obj([]), request);
      r := Ok(Put(Put(out, "dispenseRequest", Obj([])), "dispenseRequest", request));
    }
    if Present(row, "days_supply") {
      var request := Obj(Put([], "expectedSupplyDuration", Obj([("value", At(row, "days_supply"))])));
      PutEmpty("expectedSupplyDuration", Obj([("value", At(row, "days_supply"))]));
      PutTwice(r.value, "dispenseRequest", Obj([]), request);
      if Present(row, "quantity") {
        PutTwice(out, "dispenseRequest", Obj(Put([], "quantity", At(row, "quantity"))), request);
      }
      r := Ok(Put(Put(r.value, "dispenseRequest", Obj([])), "dispenseRequest", request));
    }
  }

  /** A key stored into an empty dict. */
  lemma PutEmpty(k: string, v: Json)
    ensures Put([], k, v) == [(k, v)]
  {
  }

  /** `formulate_med_req(row)`: `out` is built step by step. */
  method FormulateMedReq(row: Fields, personUuid: string -> string) returns (r: Result<Option<Fields>>)
    ensures r == MedReqAsWritten(row, personUuid)
  {
    var qualifies :- Qualifies(row);
    if !qualifies {
      return Ok(None);
    }
    var out :- Base(row, personUuid);
    out :- StoreDosage(row, out);
    out :- StoreDispense(row, out);
    var requester :- Requester(row);
    if requester.Some? {
      out := Put(out, "requester", requester.value);
    }
    var validity := Validity(row);
    if validity.Some? {
      out := Put(out, "validityPeriod", validity.value);
    }
    return Ok(Some(out));
  }

  // ---------------------------------------------------------------------
  // What the request holds

  /** A key that none of the optional parts is stored under. */
  predicate BaseKey(k: string)
  {
    k != "dosageInstruction" && k != "dispenseRequest" && k != "requester" && k != "validityPeriod"
  }

  /** A value stored when there is one leaves every other key alone. */
  lemma PutSomeGet(f: Fields, k: string, v: Option<Json>, k2: string)
    ensures Get(PutSome(f, k, v), k2) == if k2 == k && v.Some? then v else Get(f, k2)
  {
  }

  /** Each optional part is found under its key, and the other keys keep
      their values. */
  lemma AssembleGet(base: Fields, dosage: Option<Json>, dispense: Option<Json>,
                    requester: Option<Json>, validity: Option<Json>, k: string)
    requires !Has(base, "dosageInstruction") && !Has(base, "dispenseRequest")
    requires !Has(base, "requester") && !Has(base, "validityPeriod")
    ensures var out := Assemble(base, dosage, dispense, requester, validity);
            && Get(out, "dosageInstruction") == dosage
            && Get(out, "dispenseRequest") == dispense
            && Get(out, "requester") == requester
            && Get(out, "validityPeriod") == validity
            && (BaseKey(k) ==> Get(out, k) == Get(base, k))
  {
    var f1 := PutSome(base, "dosageInstruction", dosage);
    var f2 := PutSome(f1, "dispenseRequest", dispense);
    var f3 := PutSome(f2, "requester", requester);
    PutSomeGet(base, "dosageInstruction", dosage, k);
    PutSomeGet(f1, "dispenseRequest", dispense, k);
    PutSomeGet(f2, "requester", requester, k);
    PutSomeGet(f3, "validityPeriod", validity, k);
    PutSomeGet(base, "dosageInstruction", dosage, "dosageInstruction");
    PutSomeGet(f1, "dispenseRequest", dispense, "dosageInstruction");
    PutSomeGet(f2, "requester", requester, "dosageInstruction");
    PutSomeGet(f3, "validityPeriod", validity, "dosageInstruction");
    PutSomeGet(base, "dosageInstruction", dosage, "dispenseRequest");
    PutSomeGet(f1, "dispenseRequest", dispense, "dispenseRequest");
    PutSomeGet(f2, "requester", requester, "dispenseRequest");
    PutSomeGet(f3, "validityPeriod", validity, "dispenseRequest");
    PutSomeGet(base, "dosageInstruction", dosage, "requester");
    PutSomeGet(f1, "dispenseRequest", dispense, "requester");
    PutSomeGet(f2, "requester", requester, "requester");
    PutSomeGet(f3, "validityPeriod", validity, "requester");
    PutSomeGet(base, "dosageInstruction", dosage, "validityPeriod");
    PutSomeGet(f1, "dispenseRequest", dispense, "validityPeriod");
    PutSomeGet(f2, "requester", requester, "validityPeriod");
    PutSomeGet(f3, "validityPeriod", validity, "validityPeriod");
  }

  /** A lookup in a seven-entry dict literal. */
  lemma GetSeven(p: seq<(string, Json)>, k: string)
    requires |p| == 7
    ensures Get(p, k) == if p[0].0 == k then Some(p[0].1) else if p[1].0 == k then Some(p[1].1)
                         else if p[2].0 == k then Some(p[2].1) else if p[3].0 == k then Some(p[3].1)
                         else if p[4].0 == k then Some(p[4].1) else if p[5].0 == k then Some(p[5].1)
                         else if p[6].0 == k then Some(p[6].1) else None
  {
    GetStep(p, 0, k);
    GetStep(p, 1, k);
    GetStep(p, 2, k);
    GetStep(p, 3, k);
    GetStep(p, 4, k);
    GetStep(p, 5, k);
    GetStep(p, 6, k);
    assert p[0..] == p;
  }

  /** The fixed part of every request: its id, type, status and intent, and
      the identifiers of the request and of the patient. */
  lemma BaseFields(row: Fields, personUuid: string -> string)
    requires Base(row, personUuid).Ok?
    ensures var b := Base(row, personUuid).value;
            var exposure := Format(At(row, "drug_exposure_id"));
            && Get(b, "id") == Some(Str(exposure))
            && Get(b, "resourceType") == Some(Str("MedicationRequest"))
            && Get(b, "status") == Some(Str("stopped"))
            && Get(b, "intent") == Some(Str("order"))
            && Get(b, "identifier") ==
                 Some(Arr([Obj([("system", Str(TablesSystem)), ("value", Str("MedicationRequest/" + exposure))]),
                           Obj([("system", Str(TablesSystem)), ("value", Str("Patient/" + Format(At(row, "person_id"))))])]))
  {
    var b := Base(row, personUuid).value;
    GetSeven(b, "id");
    GetSeven(b, "resourceType");
    GetSeven(b, "status");
    GetSeven(b, "intent");
    GetSeven(b, "identifier");
  }

  /** The optional parts are new keys of the base dict. */
  lemma BaseKeys(row: Fields, personUuid: string -> string)
    requires Base(row, personUuid).Ok?
    ensures var b := Base(row, personUuid).value;
            && !Has(b, "dosageInstruction") && !Has(b, "dispenseRequest")
            && !Has(b, "requester") && !Has(b, "validityPeriod")
  {
    var b := Base(row, personUuid).value;
    GetSeven(b, "dosageInstruction");
    GetSeven(b, "dispenseRequest");
    GetSeven(b, "requester");
    GetSeven(b, "validityPeriod");
  }

  /** A request is made exactly when the guard passes. */
  lemma NoRequestUnlessQualified(row: Fields, personUuid: string -> string)
    ensures MedReqAsWritten(row, personUuid) == Ok(None) <==> Qualifies(row) == Ok(false)
  {
  }

  /** The guard as written fails on every one of the six fields but the
      quantity, which it reads only when a `quanitity` key is present. */
  lemma QualifiesIff(row: Fields)
    ensures Qualifies(row) == Ok(false) <==>
              && !Present(row, "sig") && !Present(row, "route_concept_id") && !Present(row, "refills")
              && !Present(row, "days_supply") && !Present(row, "verbatim_end_date")
              && (Has(row, "quanitity") ==> Has(row, "quantity") && !Present(row, "quantity"))
  {
  }

  /** As intended, a request is made exactly when one of the six fields is set. */
  lemma NoRequestUnlessQualifiedIntended(row: Fields, personUuid: string -> string)
    ensures MedReq(row, personUuid) == Ok(None) <==> !QualifiesIntended(row)
  {
  }

  /** A quantity alone never makes a request as written; as intended it does. */
  lemma QuantityAloneIgnored(row: Fields, personUuid: string -> string)
    requires Present(row, "quantity") && !Has(row, "quanitity")
    requires !Present(row, "sig") && !Present(row, "route_concept_id") && !Present(row, "refills")
    requires !Present(row, "days_supply") && !Present(row, "verbatim_end_date")
    ensures MedReqAsWritten(row, personUuid) == Ok(None)
    ensures MedReq(row, personUuid) != Ok(None)
  {
  }

  /** The request as written, when one is made, holds the fixed part. */
  lemma RequestFields(row: Fields, personUuid: string -> string, out: Fields)
    requires MedReqAsWritten(row, personUuid) == Ok(Some(out))
    ensures Get(out, "id") == Some(Str(Format(At(row, "drug_exposure_id"))))
    ensures Get(out, "resourceType") == Some(Str("MedicationRequest"))
    ensures Get(out, "status") == Some(Str("stopped")) && Get(out, "intent") == Some(Str("order"))
    ensures Get(out, "identifier") ==
              Some(Arr([Obj([("system", Str(TablesSystem)), ("value", Str("MedicationRequest/" + Format(At(row, "drug_exposure_id"))))]),
                        Obj([("system", Str(TablesSystem)), ("value", Str("Patient/" + Format(At(row, "person_id"))))])]))
  {
    var base, d, disp, req := AsWrittenParts(row, personUuid, out);
    BaseFields(row, personUuid);
    AssembleKeeps(base, d, disp, req, Validity(row), "id");
    AssembleKeeps(base, d, disp, req, Validity(row), "resourceType");
    AssembleKeeps(base, d, disp, req, Validity(row), "status");
    AssembleKeeps(base, d, disp, req, Validity(row), "intent");
    AssembleKeeps(base, d, disp, req, Validity(row), "identifier");
  }

  /** A request as written is its base with its parts stored into it. */
  lemma AsWrittenParts(row: Fields, personUuid: string -> string, out: Fields)
      returns (base: Fields, d: Option<Json>, disp: Option<Json>, req: Option<Json>)
    requires MedReqAsWritten(row, personUuid) == Ok(Some(out))
    ensures Base(row, personUuid) == Ok(base) && DosageAsWritten(row) == Ok(d)
    ensures DispenseAsWritten(row) == Ok(disp) && Requester(row) == Ok(req)
    ensures out == Assemble(base, d, disp, req, Validity(row))
  {
    base, d, disp, req := Base(row, personUuid).value, DosageAsWritten(row).value, DispenseAsWritten(row).value, Requester(row).value;
  }

  /** A key other than the optional parts' keeps its base value. */
  lemma AssembleKeeps(base: Fields, dosage: Option<Json>, dispense: Option<Json>,
                      requester: Option<Json>, validity: Option<Json>, k: string)
    requires BaseKey(k)
    ensures Get(Assemble(base, dosage, dispense, requester, validity), k) == Get(base, k)
  {
    var f1 := PutSome(base, "dosageInstruction", dosage);
    var f2 := PutSome(f1, "dispenseRequest", dispense);
    var f3 := PutSome(f2, "requester", requester);
    PutSomeGet(base, "dosageInstruction", dosage, k);
    PutSomeGet(f1, "dispenseRequest", dispense, k);
    PutSomeGet(f2, "requester", requester, k);
    PutSomeGet(f3, "validityPeriod", validity, k);
  }

  /** The optional parts of the request as written, each under its key. */
  lemma RequestParts(row: Fields, personUuid: string -> string, out: Fields)
    requires MedReqAsWritten(row, personUuid) == Ok(Some(out))
    ensures Get(out, "dosageInstruction") == DosageAsWritten(row).value
    ensures Get(out, "dispenseRequest") == DispenseAsWritten(row).value
    ensures Get(out, "requester") == Requester(row).value
    ensures Get(out, "validityPeriod") == Validity(row)
  {
    BaseKeys(row, personUuid);
    AssembleGet(Base(row, personUuid).value, DosageAsWritten(row).value, DispenseAsWritten(row).value,
                Requester(row).value, Validity(row), "id");
  }

  /** The optional parts of the intended request, each under its key. */
  lemma IntendedParts(row: Fields, personUuid: string -> string, out: Fields)
    requires MedReq(row, personUuid) == Ok(Some(out))
    ensures Get(out, "dosageInstruction") == Dosage(row)
    ensures Get(out, "dispenseRequest") == Dispense(row).value
    ensures Get(out, "requester") == Requester(row).value
    ensures Get(out, "validityPeriod") == Validity(row)
  {
    BaseKeys(row, personUuid);
    AssembleGet(Base(row, personUuid).value, Dosage(row), Dispense(row).value,
                Requester(row).value, Validity(row), "id");
  }

  /** A sig alone gives one instruction with its text; a route alone gives
      one whose route coding has the route concept as its code. */
  lemma DosageAlone(row: Fields)
    ensures Present(row, "sig") && !Has(row, "route_concept_id") ==>
              DosageAsWritten(row) == Ok(Some(Arr([Obj([("text", At(row, "sig"))])])))
    ensures !Present(row, "sig") && Present(row, "route_concept_id") ==>
              DosageAsWritten(row) == Ok(Some(Arr([Obj([("route", Route(At(row, "route_concept_id")))])])))
  {
    if Present(row, "sig") {
      assert [("text", At(row, "sig"))] + [] == [("text", At(row, "sig"))];
    }
    if Present(row, "route_concept_id") {
      assert [] + [("route", Route(At(row, "route_concept_id")))] == [("route", Route(At(row, "route_concept_id")))];
    }
  }

  /** The route coding carries the route concept as its code. */
  lemma RouteCode(code: Json)
    ensures Get(Route(code).fields, "coding") == Some(Arr([Obj([("display", Str("filler")), ("code", code), ("system", Str("filler"))])]))
    ensures Get(Route(code).fields, "text") == Some(Str("filler"))
  {
  }

  /** With a sig and a route but no `rout_concept_id` key, the request as
      written fails, where the intended one holds the combined entry. */
  lemma SigAndRoute(row: Fields, personUuid: string -> string)
    requires Present(row, "sig") && Present(row, "route_concept_id") && !Has(row, "rout_concept_id")
    requires Base(row, personUuid).Ok?
    ensures MedReqAsWritten(row, personUuid) == Err(KeyError("rout_concept_id"))
    ensures Dosage(row) == Some(Arr([Obj([("text", At(row, "sig")), ("route", Route(At(row, "route_concept_id")))])]))
  {
    assert [("text", At(row, "sig"))] + [("route", Route(At(row, "route_concept_id")))]
        == [("text", At(row, "sig")), ("route", Route(At(row, "route_concept_id")))];
  }

  /** A refill count, when `int()` reads it, makes the request as written
      fail on the missing `dispenseRequest`; as intended it becomes the
      number of repeats allowed. */
  lemma RefillsFail(row: Fields, n: int)
    requires Present(row, "refills") && IntOf(At(row, "refills")) == Ok(n)
    ensures DispenseAsWritten(row) == Err(KeyError("dispenseRequest"))
    ensures Dispense(row).Ok? && Dispense(row).value.Some? && Dispense(row).value.value.Obj?
    ensures Get(Dispense(row).value.value.fields, "numberOfRepeatsAllowed") == Some(Int(n))
  {
    var rest := (if Present(row, "quantity") then [("quantity", At(row, "quantity"))] else [])
                + (if Present(row, "days_supply") then [("expectedSupplyDuration", Obj([("value", At(row, "days_supply"))]))] else []);
    GetCons("numberOfRepeatsAllowed", Int(n), rest, "numberOfRepeatsAllowed");
  }

  /** Without refills, a days supply replaces the quantity in the request as
      written; as intended the quantity is kept beside it. */
  lemma DaysSupplyWins(row: Fields)
    requires !Present(row, "refills") && Present(row, "days_supply") && Present(row, "quantity")
    requires Has(row, "quanitity") ==> Has(row, "quantity")
    ensures DispenseAsWritten(row) == Ok(Some(Obj([("expectedSupplyDuration", Obj([("value", At(row, "days_supply"))]))])))
    ensures Dispense(row) == Ok(Some(Obj([("quantity", At(row, "quantity")),
                                          ("expectedSupplyDuration", Obj([("value", At(row, "days_supply"))]))])))
  {
    assert [] + [("quantity", At(row, "quantity"))] + [("expectedSupplyDuration", Obj([("value", At(row, "days_supply"))]))]
        == [("quantity", At(row, "quantity")), ("expectedSupplyDuration", Obj([("value", At(row, "days_supply"))]))];
  }

  /** A provider id that `int()` reads is shown in its integer form: an
      integer and the string that spells it give the same reference. */
  lemma RequesterInteger(row: Fields, i: int)
    requires Present(row, "provider_id")
    requires At(row, "provider_id") == Int(i) || At(row, "provider_id") == Str(IntToString(i))
    ensures Requester(row) == Ok(Some(Arr([Obj([("reference", Str("Practitioner/" + IntToString(i)))])])))
  {
    ParseIntString(i);
  }

  /** A provider id string that `int()` does not read is shown as it is. */
  lemma RequesterRaw(row: Fields, s: string)
    requires Present(row, "provider_id") && At(row, "provider_id") == Str(s) && ParseInt(s).None?
    ensures Requester(row) == Ok(Some(Arr([Obj([("reference", Str("Practitioner/" + s))])])))
  {
  }
}
