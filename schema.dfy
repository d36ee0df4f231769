/**
 * The request schema of the `/predict` endpoint: the nine fields of
 * `PredictionInput`, their ranges and closed enumerations, and the
 * validation that turns a raw request row into a typed request.
 */
module Schema {
  import opened Common

  // ---------------------------------------------------------------------
  // Closed enumerations (the `Literal[...]` field types)
  // ---------------------------------------------------------------------

  datatype Sex = Male | Female
  datatype Region = Quthing | ThabaTseka | ButhaButhe | Mafeteng | MohalesHoek | QachasNek | Leribe | Maseru
  datatype Employment = Employed | Unemployed | SelfEmployed
  datatype Access = Easy | Moderate | Difficult
  datatype CareType = Public | Private

  const SexNames: seq<string> := ["male", "female"]
  const RegionNames: seq<string> :=
    ["Quthing", "Thaba-Tseka", "Butha-Buthe", "Mafeteng", "Mohale's Hoek", "Qacha's Nek", "Leribe", "Maseru"]
  const EmploymentNames: seq<string> := ["employed", "unemployed", "self-employed"]
  const AccessNames: seq<string> := ["easy", "moderate", "difficult"]
  const CareTypeNames: seq<string> := ["public", "private"]

  function SexName(s: Sex): (n: string)
    ensures n in SexNames
  {
    match s
    case Male => "male"
    case Female => "female"
  }

  function ParseSex(n: string): (r: Option<Sex>)
    ensures r.Some? <==> n in SexNames
    ensures r.Some? ==> SexName(r.value) == n
  {
    if n == "male" then Some(Male)
    else if n == "female" then Some(Female)
    else None
  }

  function RegionName(g: Region): (n: string)
    ensures n in RegionNames
  {
    match g
    case Quthing => "Quthing"
    case ThabaTseka => "Thaba-Tseka"
    case ButhaButhe => "Butha-Buthe"
    case Mafeteng => "Mafeteng"
    case MohalesHoek => "Mohale's Hoek"
    case QachasNek => "Qacha's Nek"
    case Leribe => "Leribe"
    case Maseru => "Maseru"
  }

  function ParseRegion(n: string): (r: Option<Region>)
    ensures r.Some? <==> n in RegionNames
    ensures r.Some? ==> RegionName(r.value) == n
  {
    if n == "Quthing" then Some(Quthing)
    else if n == "Thaba-Tseka" then Some(ThabaTseka)
    else if n == "Butha-Buthe" then Some(ButhaButhe)
    else if n == "Mafeteng" then Some(Mafeteng)
    else if n == "Mohale's Hoek" then Some(MohalesHoek)
    else if n == "Qacha's Nek" then Some(QachasNek)
    else if n == "Leribe" then Some(Leribe)
    else if n == "Maseru" then Some(Maseru)
    else None
  }

  function EmploymentName(e: Employment): (n: string)
    ensures n in EmploymentNames
  {
    match e
    case Employed => "employed"
    case Unemployed => "unemployed"
    case SelfEmployed => "self-employed"
  }

  function ParseEmployment(n: string): (r: Option<Employment>)
    ensures r.Some? <==> n in EmploymentNames
    ensures r.Some? ==> EmploymentName(r.value) == n
  {
    if n == "employed" then Some(Employed)
    else if n == "unemployed" then Some(Unemployed)
    else if n == "self-employed" then Some(SelfEmployed)
    else None
  }

  function AccessName(a: Access): (n: string)
    ensures n in AccessNames
  {
    match a
    case Easy => "easy"
    case Moderate => "moderate"
    case Difficult => "difficult"
  }

  function ParseAccess(n: string): (r: Option<Access>)
    ensures r.Some? <==> n in AccessNames
    ensures r.Some? ==> AccessName(r.value) == n
  {
    if n == "easy" then Some(Easy)
    else if n == "moderate" then Some(Moderate)
    else if n == "difficult" then Some(Difficult)
    else None
  }

  function CareTypeName(t: CareType): (n: string)
    ensures n in CareTypeNames
  {
    match t
    case Public => "public"
    case Private => "private"
  }

  function ParseCareType(n: string): (r: Option<CareType>)
    ensures r.Some? <==> n in CareTypeNames
    ensures r.Some? ==> CareTypeName(r.value) == n
  {
    if n == "public" then Some(Public)
    else if n == "private" then Some(Private)
    else None
  }

  // ---------------------------------------------------------------------
  // Raw rows and validated requests
  // ---------------------------------------------------------------------

  /**
   * A request body as it arrives (and as the one-row data frame the
   * estimators index by column name): numbers already typed, categorical
   * fields still free text.
   */
  datatype Row = Row(
    age: int,
    sex: string,
    region: string,
    isInsured: int,
    employment: string,
    householdSize: int,
    access: string,
    annualIncome: real,
    healthcareType: string)

  type Age = a: int | 18 <= a <= 100 witness 18
  type InsuredFlag = i: int | i == 0 || i == 1 witness 0
  type HouseholdSize = n: int | 1 <= n <= 15 witness 1
  type Income = x: real | 5000.0 <= x <= 200000.0 witness 5000.0

  /** A validated `PredictionInput`: every field in its declared range or set. */
  datatype Request = Request(
    age: Age,
    sex: Sex,
    region: Region,
    isInsured: InsuredFlag,
    employment: Employment,
    householdSize: HouseholdSize,
    access: Access,
    annualIncome: Income,
    healthcareType: CareType)

  /** The column names of the request, in declaration order. */
  const FieldNames: seq<string> :=
    ["age", "sex", "region", "is_insured", "employment",
     "household_size", "primary_healthcare_access", "annual_income", "healthcare_type"]

  /** Every field within its declared range or enumeration. */
  function Valid(row: Row): (b: bool)
    ensures b <==> FieldErrors(row) == []
  {
    ErrorsNameEachViolation(row);
    EveryErrorNamesAField(row);
    && 18 <= row.age <= 100
    && row.sex in SexNames
    && row.region in RegionNames
    && (row.isInsured == 0 || row.isInsured == 1)
    && row.employment in EmploymentNames
    && 1 <= row.householdSize <= 15
    && row.access in AccessNames
    && 5000.0 <= row.annualIncome <= 200000.0
    && row.healthcareType in CareTypeNames
  }

  /** The row a validated request turns back into (`input_data.dict()`). */
  function ToRow(req: Request): (row: Row)
    ensures 18 <= row.age <= 100 && (row.isInsured == 0 || row.isInsured == 1) && 1 <= row.householdSize <= 15
    ensures 5000.0 <= row.annualIncome <= 200000.0
    ensures row.sex in SexNames && row.region in RegionNames && row.employment in EmploymentNames
    ensures row.access in AccessNames && row.healthcareType in CareTypeNames
  {
    Row(req.age, SexName(req.sex), RegionName(req.region), req.isInsured,
        EmploymentName(req.employment), req.householdSize, AccessName(req.access),
        req.annualIncome, CareTypeName(req.healthcareType))
  }

  // ---------------------------------------------------------------------
  // Validation errors
  // ---------------------------------------------------------------------

  datatype ErrorKind =
    | BelowMinimum          // a `ge=` bound failed
    | AboveMaximum          // a `le=` bound failed
    | NotPermitted          // a value outside a `Literal[...]`
    | Rejected(message: string)  // a `ValueError` raised by a field validator

  datatype FieldError = FieldError(field: string, kind: ErrorKind)

  const IncomeTooLow: string := "Annual income must be at least M5,000"
  const IncomeTooHigh: string := "Annual income cannot exceed M200,000"

  /** The `validate_income` field validator. */
  function ValidateIncome(v: real): (r: Result<real, string>)
    ensures r.Ok? <==> 5000.0 <= v <= 200000.0
    ensures r.Ok? ==> r.value == v
    ensures v < 5000.0 ==> r == Err(IncomeTooLow)
    ensures v > 200000.0 ==> r == Err(IncomeTooHigh)
  {
    if v < 5000.0 then Err(IncomeTooLow)
    else if v > 200000.0 then Err(IncomeTooHigh)
    else Ok(v)
  }

  function RangeErrors(field: string, x: int, lo: int, hi: int): seq<FieldError> {
    if x < lo then [FieldError(field, BelowMinimum)]
    else if x > hi then [FieldError(field, AboveMaximum)]
    else []
  }

  function LiteralErrors(field: string, ok: bool): seq<FieldError> {
    if ok then [] else [FieldError(field, NotPermitted)]
  }

  /**
   * The errors reported for `annual_income`: the `ge`/`le` constraints are
   * checked first and, only when they pass, the field validator runs. So
   * the validator never rejects: every income error comes from a bound.
   */
  function IncomeErrors(v: real): (errs: seq<FieldError>)
    ensures errs == [] <==> 5000.0 <= v <= 200000.0
    ensures forall e :: e in errs ==> e.field == "annual_income" && !e.kind.Rejected?
  {
    if v < 5000.0 then [FieldError("annual_income", BelowMinimum)]
    else if v > 200000.0 then [FieldError("annual_income", AboveMaximum)]
    else match ValidateIncome(v)
      case Ok(_) => []
      case Err(m) => [FieldError("annual_income", Rejected(m))]
  }

  /** The errors one field of the row contributes (none for an unknown name). */
  function FieldCheck(row: Row, field: string): (errs: seq<FieldError>)
    ensures |errs| <= 1
    ensures forall i :: 0 <= i < |errs| ==> errs[i].field == field
  {
    if field == "age" then RangeErrors("age", row.age, 18, 100)
    else if field == "sex" then LiteralErrors("sex", ParseSex(row.sex).Some?)
    else if field == "region" then LiteralErrors("region", ParseRegion(row.region).Some?)
    else if field == "is_insured" then LiteralErrors("is_insured", row.isInsured == 0 || row.isInsured == 1)
    else if field == "employment" then LiteralErrors("employment", ParseEmployment(row.employment).Some?)
    else if field == "household_size" then RangeErrors("household_size", row.householdSize, 1, 15)
    else if field == "primary_healthcare_access" then LiteralErrors("primary_healthcare_access", ParseAccess(row.access).Some?)
    else if field == "annual_income" then IncomeErrors(row.annualIncome)
    else if field == "healthcare_type" then LiteralErrors("healthcare_type", ParseCareType(row.healthcareType).Some?)
    else []
  }

  /** The errors of the named fields, in the order the names are given. */
  function ErrorsFor(row: Row, fields: seq<string>): seq<FieldError>
    decreases |fields|
  {
    if fields == [] then [] else FieldCheck(row, fields[0]) + ErrorsFor(row, fields[1..])
  }

  /** All violations of a row, one per offending field, in declaration order. */
  function FieldErrors(row: Row): seq<FieldError> {
    ErrorsFor(row, FieldNames)
  }

  /** True when some reported error names `field`. */
  predicate Reports(errs: seq<FieldError>, field: string) {
    exists i :: 0 <= i < |errs| && errs[i].field == field
  }

  /**
   * Request validation: a typed request when every field is valid, and
   * otherwise the list of all offending fields.
   */
  function Validate(row: Row): (r: Result<Request, seq<FieldError>>)
    ensures r.Ok? <==> Valid(row)
    ensures r.Ok? ==> ToRow(r.value) == row
    ensures r.Err? ==> r.error == FieldErrors(row) && |r.error| > 0
  {
    var errs := FieldErrors(row);
    if errs == [] then
      Ok(Request(row.age, ParseSex(row.sex).value, ParseRegion(row.region).value, row.isInsured,
                 ParseEmployment(row.employment).value, row.householdSize,
                 ParseAccess(row.access).value, row.annualIncome,
                 ParseCareType(row.healthcareType).value))
    else Err(errs)
  }

  /** Each field's own check accepts it exactly when its constraint holds. */
  lemma FieldCheckMeaning(row: Row)
    ensures FieldCheck(row, "age") == [] <==> 18 <= row.age <= 100
    ensures FieldCheck(row, "sex") == [] <==> row.sex in SexNames
    ensures FieldCheck(row, "region") == [] <==> row.region in RegionNames
    ensures FieldCheck(row, "is_insured") == [] <==> (row.isInsured == 0 || row.isInsured == 1)
    ensures FieldCheck(row, "employment") == [] <==> row.employment in EmploymentNames
    ensures FieldCheck(row, "household_size") == [] <==> 1 <= row.householdSize <= 15
    ensures FieldCheck(row, "primary_healthcare_access") == [] <==> row.access in AccessNames
    ensures FieldCheck(row, "annual_income") == [] <==> 5000.0 <= row.annualIncome <= 200000.0
    ensures FieldCheck(row, "healthcare_type") == [] <==> row.healthcareType in CareTypeNames
  {
  }

  lemma {:induction false} ErrorsForEmpty(row: Row, fields: seq<string>)
    ensures ErrorsFor(row, fields) == [] <==> forall f :: f in fields ==> FieldCheck(row, f) == []
    decreases |fields|
  {
    if fields != [] {
      ErrorsForEmpty(row, fields[1..]);
      assert forall f :: f in fields <==> f == fields[0] || f in fields[1..];
    }
  }

  /** A non-empty error list names at least one of the nine fields. */
  lemma EveryErrorNamesAField(row: Row)
    ensures FieldErrors(row) != [] ==>
      || Reports(FieldErrors(row), "age") || Reports(FieldErrors(row), "sex")
      || Reports(FieldErrors(row), "region") || Reports(FieldErrors(row), "is_insured")
      || Reports(FieldErrors(row), "employment") || Reports(FieldErrors(row), "household_size")
      || Reports(FieldErrors(row), "primary_healthcare_access") || Reports(FieldErrors(row), "annual_income")
      || Reports(FieldErrors(row), "healthcare_type")
  {
    var errs := FieldErrors(row);
    if errs != [] {
      var f := errs[0].field;
      assert Reports(errs, f);
      ErrorsForReports(row, FieldNames, f);
      var i :| 0 <= i < |FieldNames| && FieldNames[i] == f;
      assert i in {0, 1, 2, 3, 4, 5, 6, 7, 8};
    }
  }

  lemma {:induction false} ErrorsForReports(row: Row, fields: seq<string>, f: string)
    ensures Reports(ErrorsFor(row, fields), f) <==> f in fields && FieldCheck(row, f) != []
    decreases |fields|
  {
    if fields != [] {
      var head, tail := FieldCheck(row, fields[0]), ErrorsFor(row, fields[1..]);
      ErrorsForReports(row, fields[1..], f);
      ReportsAppend(head, tail);
      assert Reports(head, f) <==> f == fields[0] && head != [] by {
        if head != [] { assert head[0].field == fields[0]; }
      }
      assert f in fields <==> f == fields[0] || f in fields[1..];
    }
  }

  // ---------------------------------------------------------------------
  // Properties
  // ---------------------------------------------------------------------

  /** Each field is named among the errors exactly when it violates its constraint. */
  lemma ErrorsNameEachViolation(row: Row)
    ensures Reports(FieldErrors(row), "age") <==> !(18 <= row.age <= 100)
    ensures Reports(FieldErrors(row), "sex") <==> row.sex !in SexNames
    ensures Reports(FieldErrors(row), "region") <==> row.region !in RegionNames
    ensures Reports(FieldErrors(row), "is_insured") <==> !(row.isInsured == 0 || row.isInsured == 1)
    ensures Reports(FieldErrors(row), "employment") <==> row.employment !in EmploymentNames
    ensures Reports(FieldErrors(row), "household_size") <==> !(1 <= row.householdSize <= 15)
    ensures Reports(FieldErrors(row), "primary_healthcare_access") <==> row.access !in AccessNames
    ensures Reports(FieldErrors(row), "annual_income") <==> !(5000.0 <= row.annualIncome <= 200000.0)
    ensures Reports(FieldErrors(row), "healthcare_type") <==> row.healthcareType !in CareTypeNames
  {
    FieldCheckMeaning(row);
    ErrorsForReports(row, FieldNames, "age");
    ErrorsForReports(row, FieldNames, "sex");
    ErrorsForReports(row, FieldNames, "region");
    ErrorsForReports(row, FieldNames, "is_insured");
    ErrorsForReports(row, FieldNames, "employment");
    ErrorsForReports(row, FieldNames, "household_size");
    ErrorsForReports(row, FieldNames, "primary_healthcare_access");
    ErrorsForReports(row, FieldNames, "annual_income");
    ErrorsForReports(row, FieldNames, "healthcare_type");
  }

  lemma ReportsAppend(a: seq<FieldError>, b: seq<FieldError>)
    ensures forall f :: Reports(a + b, f) <==> Reports(a, f) || Reports(b, f)
  {
    forall f
      ensures Reports(a + b, f) <==> Reports(a, f) || Reports(b, f)
    {
      if Reports(a, f) {
        var i :| 0 <= i < |a| && a[i].field == f;
        assert (a + b)[i] == a[i];
      }
      if Reports(b, f) {
        var i :| 0 <= i < |b| && b[i].field == f;
        assert (a + b)[|a| + i] == b[i];
      }
      if Reports(a + b, f) && !Reports(a, f) {
        var i :| 0 <= i < |a + b| && (a + b)[i].field == f;
        assert i >= |a|;
        assert b[i - |a|] == (a + b)[i];
      }
    }
  }

  /** Each enumeration value's label parses back to that value. */
  lemma LabelsRoundTrip(s: Sex, g: Region, e: Employment, a: Access, t: CareType)
    ensures ParseSex(SexName(s)) == Some(s)
    ensures ParseRegion(RegionName(g)) == Some(g)
    ensures ParseEmployment(EmploymentName(e)) == Some(e)
    ensures ParseAccess(AccessName(a)) == Some(a)
    ensures ParseCareType(CareTypeName(t)) == Some(t)
  {
  }

  /** Every valid request survives the round trip through its raw row. */
  lemma RequestRoundTrip(req: Request)
    ensures Validate(ToRow(req)) == Ok(req)
  {
    LabelsRoundTrip(req.sex, req.region, req.employment, req.access, req.healthcareType);
  }

  /** Ages just outside the declared range are rejected before any estimate. */
  lemma AgeBoundsRejected(row: Row)
    requires row.age == 17 || row.age == 101
    ensures Validate(row).Err?
    ensures Reports(Validate(row).error, "age")
  {
    ErrorsNameEachViolation(row);
  }
}
