/**
 * The prediction module: its module-level state (model, scaler, feature
 * names, label encoders), how loading the artifacts fills that state, the
 * dispatch between the trained model and the additive fallback, and the
 * column-encoding and column-ordering steps that prepare a one-row frame
 * for the trained model. The fitted scaler and regression model are
 * opaque functions.
 */
module Prediction {
  import opened Common
  import opened Schema
  import AdditiveDemo

  // ---------------------------------------------------------------------
  // Frames, encoders and artifacts
  // ---------------------------------------------------------------------

  /** One cell of a one-row data frame. */
  datatype Cell = Text(text: string) | Number(x: real)

  /** A one-row data frame: column name to cell. */
  type Frame = map<string, Cell>

  /** A fitted label encoder, given by its list of known classes. */
  datatype Encoder = Encoder(classes: seq<string>)

  /** A fitted regression model; `predict` is the opaque library call. */
  datatype Model = Model(predict: seq<real> -> real)

  /** A fitted feature scaler; `transform` is the opaque library call. */
  datatype Scaler = Scaler(transform: seq<real> -> seq<real>)

  /** The module-level globals; `None` is Python's `None`. */
  datatype Components = Components(
    model: Option<Model>,
    scaler: Option<Scaler>,
    featureNames: Option<seq<string>>,
    labelEncoders: Option<map<string, Encoder>>)

  /**
   * What each of the four artifact files holds, in the same shape as the
   * globals they are loaded into; `None` when the file is missing.
   */
  type ArtifactFiles = Components

  /** The feature list installed when an artifact file is missing. */
  const DefaultFeatureNames: seq<string> :=
    ["age", "sex", "region", "is_insured", "employment",
     "household_size", "primary_healthcare_access", "annual_income", "healthcare_type"]

  /** The columns the trained path label-encodes, in this order. */
  const CategoricalColumns: seq<string> :=
    ["sex", "region", "employment", "primary_healthcare_access", "healthcare_type"]

  /** Whether every artifact file was found. */
  predicate AllFilesPresent(files: ArtifactFiles) {
    files.model.Some? && files.scaler.Some? && files.featureNames.Some? && files.labelEncoders.Some?
  }

  /**
   * `load_model_components`: the four files are loaded in order; the first
   * missing one stops loading, keeps what was already assigned and installs
   * the default feature list (replacing a feature list already loaded).
   */
  function LoadModelComponents(files: ArtifactFiles): (c: Components)
    ensures c.model == files.model
    ensures c.scaler.Some? <==> files.model.Some? && files.scaler.Some?
    ensures c.scaler.Some? ==> c.scaler == files.scaler
    ensures c.labelEncoders.Some? <==> AllFilesPresent(files)
    ensures AllFilesPresent(files) ==> c.labelEncoders == files.labelEncoders && c.featureNames == files.featureNames
    ensures !AllFilesPresent(files) ==> c.featureNames == Some(DefaultFeatureNames)
  {
    if files.model.None? then
      Components(None, None, Some(DefaultFeatureNames), None)
    else if files.scaler.None? then
      Components(files.model, None, Some(DefaultFeatureNames), None)
    else if files.featureNames.None? then
      Components(files.model, files.scaler, Some(DefaultFeatureNames), None)
    else if files.labelEncoders.None? then
      Components(files.model, files.scaler, Some(DefaultFeatureNames), None)
    else
      Components(files.model, files.scaler, files.featureNames, files.labelEncoders)
  }

  // ---------------------------------------------------------------------
  // Errors the trained path can raise
  // ---------------------------------------------------------------------

  datatype PredictError =
    | EncodersNotLoaded              // membership test against `None`: TypeError
    | UnseenLabel(column: string)    // the encoder does not know the label: ValueError
    | FeatureNamesNotLoaded          // indexing the frame by `None`: KeyError
    | MissingColumns(names: seq<string>)  // feature names absent from the frame: KeyError
    | NonNumericFeature              // the scaler is handed text: ValueError

  /** The errors Python raises as `ValueError`; the others are not. */
  predicate IsValueError(e: PredictError) {
    e.UnseenLabel? || e.NonNumericFeature?
  }

  // ---------------------------------------------------------------------
  // Label encoding
  // ---------------------------------------------------------------------

  /** The position of `x` in `xs`, if any. */
  function IndexOf(xs: seq<string>, x: string): (r: Option<nat>)
    ensures r.None? <==> x !in xs
    ensures r.Some? ==> r.value < |xs| && xs[r.value] == x && x !in xs[..r.value]
    decreases |xs|
  {
    if xs == [] then None
    else if xs[0] == x then Some(0)
    else match IndexOf(xs[1..], x)
      case None => None
      case Some(i) => Some(i + 1)
  }

  /** `LabelEncoder.transform` on one cell: the class index of a known label. */
  function Transform(encoder: Encoder, cell: Cell): Option<nat> {
    match cell
    case Text(s) => IndexOf(encoder.classes, s)
    case Number(_) => None
  }

  predicate Distinct(xs: seq<string>) {
    forall i, j :: 0 <= i < j < |xs| ==> xs[i] != xs[j]
  }

  /** Encoding is a bijection between an encoder's classes and their indices. */
  lemma LabelRoundTrip(encoder: Encoder, i: nat, s: string)
    requires Distinct(encoder.classes)
    ensures i < |encoder.classes| ==> Transform(encoder, Text(encoder.classes[i])) == Some(i)
    ensures Transform(encoder, Text(s)) == Some(i) ==> encoder.classes[i] == s
  {
  }

  /** The new value of a present column when the encoders are loaded. */
  function EncodeCell(encoders: map<string, Encoder>, column: string, cell: Cell): Result<Cell, PredictError> {
    if column !in encoders then Ok(cell)
    else match Transform(encoders[column], cell)
      case None => Err(UnseenLabel(column))
      case Some(code) => Ok(Number(code as real))
  }

  /** One iteration of the encoding loop. */
  function EncodeColumn(df: Frame, encoders: Option<map<string, Encoder>>, column: string): (r: Result<Frame, PredictError>)
    ensures r.Ok? ==> r.value.Keys == df.Keys && forall k :: k in df && k != column ==> r.value[k] == df[k]
    ensures r.Err? ==> r.error == EncodersNotLoaded || r.error == UnseenLabel(column)
  {
    if column !in df then Ok(df)
    else if encoders.None? then Err(EncodersNotLoaded)
    else match EncodeCell(encoders.value, column, df[column])
      case Err(e) => Err(e)
      case Ok(cell) => Ok(df[column := cell])
  }

  /** The encoding loop over `columns`, stopping at the first error. */
  function EncodeColumns(df: Frame, encoders: Option<map<string, Encoder>>, columns: seq<string>): (r: Result<Frame, PredictError>)
    ensures r.Ok? ==> r.value.Keys == df.Keys
    ensures r.Ok? ==> forall k :: k in df && k !in columns ==> r.value[k] == df[k]
    ensures r.Err? ==> r.error == EncodersNotLoaded || (r.error.UnseenLabel? && r.error.column in columns)
    decreases |columns|
  {
    if columns == [] then Ok(df)
    else
      assert forall x :: x in columns[1..] ==> x in columns;
      match EncodeColumn(df, encoders, columns[0])
      case Err(e) => Err(e)
      case Ok(next) => EncodeColumns(next, encoders, columns[1..])
  }

  /** A column the loop can encode: absent, or present with a loaded encoder that knows its label. */
  predicate Encodable(df: Frame, encoders: Option<map<string, Encoder>>, column: string) {
    column in df ==> encoders.Some? && EncodeCell(encoders.value, column, df[column]).Ok?
  }

  /**
   * The encoding loop fails exactly when some listed column cannot be
   * encoded; otherwise it keeps the frame's columns, rewrites each listed
   * column by its encoder, and leaves every other column as it was.
   */
  lemma {:induction false} EncodeColumnsSpec(df: Frame, encoders: Option<map<string, Encoder>>, columns: seq<string>)
    requires Distinct(columns)
    ensures EncodeColumns(df, encoders, columns).Ok? <==> forall c :: c in columns ==> Encodable(df, encoders, c)
    ensures EncodeColumns(df, encoders, columns).Ok? ==>
      forall k :: k in df && k in columns ==>
        encoders.Some? && EncodeColumns(df, encoders, columns).value[k] == EncodeCell(encoders.value, k, df[k]).value
    decreases |columns|
  {
    if columns != [] {
      var c, rest := columns[0], columns[1..];
      assert forall x :: x in columns <==> x == c || x in rest;
      assert c !in rest;
      assert Distinct(rest);
      match EncodeColumn(df, encoders, c)
      case Err(_) =>
        assert !Encodable(df, encoders, c);
      case Ok(next) =>
        EncodeColumnsSpec(next, encoders, rest);
        assert next.Keys == df.Keys;
        assert forall k :: k in df && k != c ==> next[k] == df[k];
        assert forall x :: x in rest ==> (Encodable(next, encoders, x) <==> Encodable(df, encoders, x));
        assert Encodable(df, encoders, c);
        if c in df {
          assert next[c] == EncodeCell(encoders.value, c, df[c]).value;
        }
    }
  }

  /**
   * The loop of the trained path: each categorical column present in the
   * frame is replaced, on a copy of the frame, by its label code.
   */
  method EncodeCategoricals(input: Frame, encoders: Option<map<string, Encoder>>) returns (r: Result<Frame, PredictError>)
    ensures r == EncodeColumns(input, encoders, CategoricalColumns)
  {
    var df := input;
    for i := 0 to |CategoricalColumns|
      invariant EncodeColumns(df, encoders, CategoricalColumns[i..]) == EncodeColumns(input, encoders, CategoricalColumns)
    {
      var column := CategoricalColumns[i];
      assert CategoricalColumns[i..][0] == column && CategoricalColumns[i..][1..] == CategoricalColumns[i + 1..];
      if column in df {
        if encoders.None? {
          return Err(EncodersNotLoaded);
        }
        if column in encoders.value {
          var code := Transform(encoders.value[column], df[column]);
          if code.None? {
            return Err(UnseenLabel(column));
          }
          df := df[column := Number(code.value as real)];
        } else {
          assert df[column := df[column]] == df;
        }
      }
    }
    assert CategoricalColumns[|CategoricalColumns|..] == [];
    return Ok(df);
  }

  // ---------------------------------------------------------------------
  // Column projection and the feature vector
  // ---------------------------------------------------------------------

  /** The listed names the frame lacks, in list order. */
  function Missing(df: Frame, names: seq<string>): (m: seq<string>)
    ensures forall n :: n in m <==> n in names && n !in df
    decreases |names|
  {
    if names == [] then []
    else (if names[0] in df then [] else [names[0]]) + Missing(df, names[1..])
  }

  /** `df[feature_names]`: the cells of the named columns, in that order. */
  function Project(df: Frame, names: seq<string>): (r: Result<seq<Cell>, PredictError>)
    ensures r.Ok? <==> forall n :: n in names ==> n in df
    ensures r.Ok? ==> |r.value| == |names| && forall i :: 0 <= i < |names| ==> r.value[i] == df[names[i]]
    ensures r.Err? ==> r.error == MissingColumns(Missing(df, names)) && |Missing(df, names)| > 0
  {
    var missing := Missing(df, names);
    if missing == [] then
      assert forall i :: 0 <= i < |names| ==> names[i] in df by {
        forall i | 0 <= i < |names| ensures names[i] in df {
          assert names[i] in names;
        }
      }
      Ok(seq(|names|, i requires 0 <= i < |names| => df[names[i]]))
    else
      assert missing[0] in missing;
      Err(MissingColumns(missing))
  }

  /** The cells as numbers, as the scaler needs them. */
  function ToNumbers(cells: seq<Cell>): (r: Result<seq<real>, PredictError>)
    ensures r.Ok? <==> forall i :: 0 <= i < |cells| ==> cells[i].Number?
    ensures r.Ok? ==> |r.value| == |cells| && forall i :: 0 <= i < |cells| ==> cells[i] == Number(r.value[i])
    ensures r.Err? ==> r.error == NonNumericFeature
  {
    if forall i :: 0 <= i < |cells| ==> cells[i].Number? then
      Ok(seq(|cells|, i requires 0 <= i < |cells| && cells[i].Number? => cells[i].x))
    else
      Err(NonNumericFeature)
  }

  /** Encode, project onto the feature list and read as numbers. */
  function FeatureVector(c: Components, df: Frame): (r: Result<seq<real>, PredictError>)
    ensures r.Ok? ==>
      && c.featureNames.Some?
      && EncodeColumns(df, c.labelEncoders, CategoricalColumns).Ok?
      && |r.value| == |c.featureNames.value|
      && forall i :: 0 <= i < |r.value| ==>
           c.featureNames.value[i] in EncodeColumns(df, c.labelEncoders, CategoricalColumns).value
           && Number(r.value[i]) == EncodeColumns(df, c.labelEncoders, CategoricalColumns).value[c.featureNames.value[i]]
    ensures var encoding := EncodeColumns(df, c.labelEncoders, CategoricalColumns);
      && (encoding.Err? ==> r == Err(encoding.error))
      && (encoding.Ok? && c.featureNames.None? ==> r == Err(FeatureNamesNotLoaded))
      && (encoding.Ok? && c.featureNames.Some? && Missing(encoding.value, c.featureNames.value) != [] ==>
            r == Err(MissingColumns(Missing(encoding.value, c.featureNames.value))))
      && (encoding.Ok? && c.featureNames.Some? && Missing(encoding.value, c.featureNames.value) == [] && r.Err? ==>
            r.error == NonNumericFeature)
    ensures var encoding := EncodeColumns(df, c.labelEncoders, CategoricalColumns);
      (&& encoding.Ok? && c.featureNames.Some? && Missing(encoding.value, c.featureNames.value) == []
       && (forall n :: n in c.featureNames.value ==> encoding.value[n].Number?))
      ==> r.Ok?
  {
    var encoding := EncodeColumns(df, c.labelEncoders, CategoricalColumns);
    if encoding.Err? then Err(encoding.error)
    else if c.featureNames.None? then Err(FeatureNamesNotLoaded)
    else SelectFeatures(encoding.value, c.featureNames.value)
  }

  /** Selecting columns that are all present and all numbers yields only numbers. */
  lemma NumericColumnsProject(encoded: Frame, names: seq<string>)
    ensures Missing(encoded, names) == [] && (forall n :: n in names ==> encoded[n].Number?) ==>
      Project(encoded, names).Ok? && ToNumbers(Project(encoded, names).value).Ok?
  {
    if Missing(encoded, names) == [] && (forall n :: n in names ==> encoded[n].Number?) {
      var cells := Project(encoded, names).value;
      forall i | 0 <= i < |cells|
        ensures cells[i].Number?
      {
        assert names[i] in names;
      }
    }
  }

  /** The named columns of an encoded frame, in the order given, as numbers. */
  function SelectFeatures(encoded: Frame, names: seq<string>): (r: Result<seq<real>, PredictError>)
    ensures r.Ok? ==>
      && |r.value| == |names|
      && forall i :: 0 <= i < |r.value| ==> names[i] in encoded && Number(r.value[i]) == encoded[names[i]]
    ensures Missing(encoded, names) != [] ==> r == Err(MissingColumns(Missing(encoded, names)))
    ensures Missing(encoded, names) == [] && r.Err? ==> r.error == NonNumericFeature
    ensures Missing(encoded, names) == [] && (forall n :: n in names ==> encoded[n].Number?) ==> r.Ok?
  {
    NumericColumnsProject(encoded, names);
    var projection := Project(encoded, names);
    if projection.Err? then Err(projection.error)
    else ToNumbers(projection.value)
  }

  /** `predict_with_model`: scale the feature vector and apply the model. */
  function PredictWithModel(c: Components, df: Frame): (r: Result<real, PredictError>)
    requires c.model.Some? && c.scaler.Some?
    ensures r.Ok? <==> FeatureVector(c, df).Ok?
    ensures r.Ok? ==> r.value == c.model.value.predict(c.scaler.value.transform(FeatureVector(c, df).value))
    ensures r.Err? ==> r.error == FeatureVector(c, df).error
  {
    match FeatureVector(c, df)
    case Err(e) => Err(e)
    case Ok(xs) => Ok(c.model.value.predict(c.scaler.value.transform(xs)))
  }

  /** The one-row frame built from a request row. */
  function RowFrame(row: Row): (df: Frame)
    ensures df.Keys == set n | n in FieldNames
  {
    map["age" := Number(row.age as real), "sex" := Text(row.sex), "region" := Text(row.region),
        "is_insured" := Number(row.isInsured as real), "employment" := Text(row.employment),
        "household_size" := Number(row.householdSize as real),
        "primary_healthcare_access" := Text(row.access), "annual_income" := Number(row.annualIncome),
        "healthcare_type" := Text(row.healthcareType)]
  }

  /** Whether `predict_cost` takes the trained-model path. */
  predicate UsesModel(c: Components) {
    c.model.Some? && c.scaler.Some?
  }

  /** `predict_cost`: the trained model when both model and scaler are loaded, else the additive fallback. */
  function PredictCost(c: Components, row: Row, v: real): (r: Result<real, PredictError>)
    requires AdditiveDemo.IsDraw(v)
    ensures UsesModel(c) ==> r == PredictWithModel(c, RowFrame(row))
    ensures !UsesModel(c) ==> r == Ok(AdditiveDemo.PredictDemo(row, v)) && r.value >= AdditiveDemo.MinimumCost
  {
    if UsesModel(c) then PredictWithModel(c, RowFrame(row))
    else Ok(AdditiveDemo.PredictDemo(row, v))
  }

  // ---------------------------------------------------------------------
  // Properties
  // ---------------------------------------------------------------------

  lemma CategoricalColumnsDistinct()
    ensures Distinct(CategoricalColumns)
  {
  }

  /**
   * The encoding step rewrites exactly the categorical columns that are in
   * both the frame and the encoder map, each to its label code, and leaves
   * every other column unchanged.
   */
  lemma EncodingRewritesOnlyEncodedCategoricals(df: Frame, encoders: map<string, Encoder>)
    ensures var r := EncodeColumns(df, Some(encoders), CategoricalColumns);
      r.Ok? ==>
        && r.value.Keys == df.Keys
        && (forall k :: k in df && (k !in CategoricalColumns || k !in encoders) ==> r.value[k] == df[k])
        && (forall k :: k in df && k in CategoricalColumns && k in encoders ==>
              exists code: nat :: Transform(encoders[k], df[k]) == Some(code) && r.value[k] == Number(code as real))
  {
    CategoricalColumnsDistinct();
    EncodeColumnsSpec(df, Some(encoders), CategoricalColumns);
    var r := EncodeColumns(df, Some(encoders), CategoricalColumns);
    if r.Ok? {
      forall k | k in df && k in CategoricalColumns && k in encoders
        ensures exists code: nat :: Transform(encoders[k], df[k]) == Some(code) && r.value[k] == Number(code as real)
      {
        var code := Transform(encoders[k], df[k]).value;
        assert r.value[k] == Number(code as real);
      }
    }
  }

  /**
   * Without loaded encoders the trained path fails on every request frame
   * (the membership test against `None` raises before anything is encoded).
   */
  lemma EncodersMissingFailsEveryRequest(c: Components, row: Row)
    requires c.labelEncoders.None?
    ensures FeatureVector(c, RowFrame(row)) == Err(EncodersNotLoaded)
  {
    var df := RowFrame(row);
    assert CategoricalColumns[0] == "sex" && "sex" in df;
    assert EncodeColumn(df, c.labelEncoders, "sex") == Err(EncodersNotLoaded);
  }

  /** The columns that hold numbers in a request frame. */
  const NumericColumns: seq<string> := ["age", "is_insured", "household_size", "annual_income"]

  /**
   * After a successful encoding of a frame that holds numbers in the numeric
   * columns and has every categorical column, with an encoder for each
   * categorical column, every one of those columns holds a number: the
   * frame's own value for a numeric column, the label code for a categorical one.
   */
  lemma EncodedFrameIsNumeric(df: Frame, encoders: map<string, Encoder>)
    requires forall k :: k in CategoricalColumns ==> k in encoders && k in df
    requires forall n :: n in NumericColumns ==> n in df && df[n].Number?
    requires EncodeColumns(df, Some(encoders), CategoricalColumns).Ok?
    ensures var e := EncodeColumns(df, Some(encoders), CategoricalColumns).value;
      && e.Keys == df.Keys
      && (forall n :: n in NumericColumns ==> e[n] == df[n] && e[n].Number?)
      && (forall n :: n in CategoricalColumns ==>
            Transform(encoders[n], df[n]).Some? && e[n] == Number(Transform(encoders[n], df[n]).value as real))
  {
    CategoricalColumnsDistinct();
    EncodeColumnsSpec(df, Some(encoders), CategoricalColumns);
    var e := EncodeColumns(df, Some(encoders), CategoricalColumns).value;
    forall n | n in NumericColumns
      ensures e[n] == df[n] && e[n].Number?
    {
      assert n !in CategoricalColumns;
    }
    forall n | n in CategoricalColumns
      ensures Transform(encoders[n], df[n]).Some? && e[n] == Number(Transform(encoders[n], df[n]).value as real)
    {
      assert e[n] == EncodeCell(encoders, n, df[n]).value;
    }
  }

  /** A request frame holds numbers in its numeric columns and has every categorical column. */
  lemma RowFrameShape(row: Row)
    ensures forall n :: n in NumericColumns ==> n in RowFrame(row) && RowFrame(row)[n].Number?
    ensures forall k :: k in CategoricalColumns ==> k in RowFrame(row)
  {
    var df := RowFrame(row);
    assert df["age"].Number? && df["is_insured"].Number?;
    assert df["household_size"].Number? && df["annual_income"].Number?;
  }

  /** Every column of a request frame is numeric or categorical. */
  lemma FieldNamesSplit(n: string)
    requires n in FieldNames
    ensures n in NumericColumns || n in CategoricalColumns
  {
  }

  /**
   * With every categorical column covered by an encoder that knows the
   * request's label, and a feature list drawn from the request's columns,
   * the trained path yields one number per feature, in feature-list order:
   * the row's value for a numeric column, the label code for a categorical one.
   */
  lemma FeatureVectorOfRequest(c: Components, row: Row)
    requires c.labelEncoders.Some? && c.featureNames.Some?
    requires forall k :: k in CategoricalColumns ==> k in c.labelEncoders.value
    requires forall k :: k in CategoricalColumns ==> Encodable(RowFrame(row), c.labelEncoders, k)
    requires forall n :: n in c.featureNames.value ==> n in FieldNames
    ensures FeatureVector(c, RowFrame(row)).Ok?
    ensures var xs := FeatureVector(c, RowFrame(row)).value;
      && |xs| == |c.featureNames.value|
      && forall i :: 0 <= i < |xs| ==>
           var name := c.featureNames.value[i];
           (name in NumericColumns ==> Number(xs[i]) == RowFrame(row)[name])
           && (name in CategoricalColumns ==>
                 Transform(c.labelEncoders.value[name], RowFrame(row)[name]).Some?
                 && xs[i] == Transform(c.labelEncoders.value[name], RowFrame(row)[name]).value as real)
  {
    var df := RowFrame(row);
    var encoders := c.labelEncoders.value;
    var names := c.featureNames.value;
    CategoricalColumnsDistinct();
    EncodeColumnsSpec(df, c.labelEncoders, CategoricalColumns);
    RowFrameShape(row);
    EncodedFrameIsNumeric(df, encoders);
    var encoded := EncodeColumns(df, c.labelEncoders, CategoricalColumns).value;
    forall n | n in names
      ensures n in encoded && encoded[n].Number?
    {
      FieldNamesSplit(n);
    }
    assert Project(encoded, names).Ok?;
    var cells := Project(encoded, names).value;
    forall i | 0 <= i < |cells|
      ensures cells[i].Number?
    {
      assert names[i] in names;
    }
  }

  /** The trained path does not depend on the random draw; the fallback always succeeds. */
  lemma DispatchByComponents(c: Components, row: Row, v: real, w: real)
    requires AdditiveDemo.IsDraw(v) && AdditiveDemo.IsDraw(w)
    ensures UsesModel(c) ==> PredictCost(c, row, v) == PredictCost(c, row, w)
  {
  }
}
