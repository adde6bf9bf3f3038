/** The category encoder: the nine label-to-code tables of the form's categorical fields.

    Each field is a datatype whose constructors are the radio-button options. `Label()` is
    the string the widget returns and `Code()` the integer the model artifacts were fit on.
    The dictionaries of the source are mirrored as `map<string, nat>` constants (the
    `...Mapping` constants) next to the widget's option lists (the `...Options` constants),
    and for each field a lemma ties the three together. */
module Categories {
  import opened Wrappers

  /** `mapping` sends the i-th of `options` to i and knows no other key. */
  ghost predicate EnumeratesInOrder(options: seq<string>, mapping: map<string, nat>) {
    && (forall k :: k in mapping <==> k in options)
    && (forall i :: 0 <= i < |options| ==> options[i] in mapping && mapping[options[i]] == i)
  }

  /** A table that enumerates its options in order is a bijection between its n labels and
      the codes 0..n-1. */
  lemma EnumerationIsBijective(options: seq<string>, mapping: map<string, nat>)
    requires EnumeratesInOrder(options, mapping)
    ensures forall i, j :: 0 <= i < j < |options| ==> options[i] != options[j]
    ensures forall k :: k in mapping ==> mapping[k] < |options| && options[mapping[k]] == k
    ensures forall k1, k2 :: k1 in mapping && k2 in mapping && mapping[k1] == mapping[k2] ==> k1 == k2
    ensures |mapping| == |options|
  {
    forall k | k in mapping
      ensures mapping[k] < |options| && options[mapping[k]] == k
    {
      var i :| 0 <= i < |options| && options[i] == k;
    }
    assert mapping.Keys == set k | k in options;
    DistinctCardinality(options);
  }

  /** A sequence without repeated elements has as many distinct elements as it is long. */
  lemma {:induction false} DistinctCardinality(s: seq<string>)
    requires forall i, j :: 0 <= i < j < |s| ==> s[i] != s[j]
    ensures |set k | k in s| == |s|
  {
    if s != [] {
      var rest := s[1..];
      DistinctCardinality(rest);
      assert (set k | k in s) == (set k | k in rest) + {s[0]};
      assert forall j :: 0 <= j < |rest| ==> rest[j] == s[j + 1];
    }
  }

  // ---------- race (app.py:99, 124) ----------

  const RaceOptions: seq<string> := ["White", "Black", "Other"]
  const RaceMapping: map<string, nat> := map["White" := 0, "Black" := 1, "Other" := 2]

  datatype Race = White | Black | Other {
    function Label(): string {
      match this
      case White => "White"
      case Black => "Black"
      case Other => "Other"
    }

    function Code(): nat {
      match this
      case White => 0
      case Black => 1
      case Other => 2
    }
  }

  /** The race whose code is `c`, if any. */
  function RaceFromCode(c: int): Option<Race> {
    if c == 0 then Some(White) else if c == 1 then Some(Black) else if c == 2 then Some(Other) else None
  }

  lemma RaceEncoding()
    ensures EnumeratesInOrder(RaceOptions, RaceMapping)
    ensures forall x: Race :: Lookup(RaceMapping, x.Label()) == Some(x.Code())
    ensures forall x: Race :: x.Code() < |RaceOptions| && RaceOptions[x.Code()] == x.Label()
    ensures forall x: Race, y: Race :: x.Code() == y.Code() ==> x == y
    ensures forall x: Race :: RaceFromCode(x.Code()) == Some(x)
    ensures forall c: int :: RaceFromCode(c).Some? <==> 0 <= c < |RaceOptions|
    ensures forall c: int :: RaceFromCode(c).Some? ==> RaceFromCode(c).value.Code() == c
  {
  }

  // ---------- T stage (app.py:100, 125) ----------

  const TStageOptions: seq<string> := ["T1", "T2", "T3", "T4"]
  const TStageMapping: map<string, nat> := map["T1" := 0, "T2" := 1, "T3" := 2, "T4" := 3]

  datatype TStage = T1 | T2 | T3 | T4 {
    function Label(): string {
      match this
      case T1 => "T1"
      case T2 => "T2"
      case T3 => "T3"
      case T4 => "T4"
    }

    function Code(): nat {
      match this
      case T1 => 0
      case T2 => 1
      case T3 => 2
      case T4 => 3
    }
  }

  function TStageFromCode(c: int): Option<TStage> {
    if c == 0 then Some(T1) else if c == 1 then Some(T2) else if c == 2 then Some(T3)
    else if c == 3 then Some(T4) else None
  }

  lemma TStageEncoding()
    ensures EnumeratesInOrder(TStageOptions, TStageMapping)
    ensures forall x: TStage :: Lookup(TStageMapping, x.Label()) == Some(x.Code())
    ensures forall x: TStage :: x.Code() < |TStageOptions| && TStageOptions[x.Code()] == x.Label()
    ensures forall x: TStage, y: TStage :: x.Code() == y.Code() ==> x == y
    ensures forall x: TStage :: TStageFromCode(x.Code()) == Some(x)
    ensures forall c: int :: TStageFromCode(c).Some? <==> 0 <= c < |TStageOptions|
    ensures forall c: int :: TStageFromCode(c).Some? ==> TStageFromCode(c).value.Code() == c
  {
  }

  // ---------- N stage (app.py:101, 126) ----------

  const NStageOptions: seq<string> := ["N1", "N2", "N3"]
  const NStageMapping: map<string, nat> := map["N1" := 0, "N2" := 1, "N3" := 2]

  datatype NStage = N1 | N2 | N3 {
    function Label(): string {
      match this
      case N1 => "N1"
      case N2 => "N2"
      case N3 => "N3"
    }

    function Code(): nat {
      match this
      case N1 => 0
      case N2 => 1
      case N3 => 2
    }
  }

  function NStageFromCode(c: int): Option<NStage> {
    if c == 0 then Some(N1) else if c == 1 then Some(N2) else if c == 2 then Some(N3) else None
  }

  lemma NStageEncoding()
    ensures EnumeratesInOrder(NStageOptions, NStageMapping)
    ensures forall x: NStage :: Lookup(NStageMapping, x.Label()) == Some(x.Code())
    ensures forall x: NStage :: x.Code() < |NStageOptions| && NStageOptions[x.Code()] == x.Label()
    ensures forall x: NStage, y: NStage :: x.Code() == y.Code() ==> x == y
    ensures forall x: NStage :: NStageFromCode(x.Code()) == Some(x)
    ensures forall c: int :: NStageFromCode(c).Some? <==> 0 <= c < |NStageOptions|
    ensures forall c: int :: NStageFromCode(c).Some? ==> NStageFromCode(c).value.Code() == c
  {
  }

  // ---------- 6th stage (app.py:102, 127) ----------

  const SixthStageOptions: seq<string> := ["IIA", "IIB", "IIIA", "IIIB", "IIIC"]
  const SixthStageMapping: map<string, nat> :=
    map["IIA" := 0, "IIB" := 1, "IIIA" := 2, "IIIB" := 3, "IIIC" := 4]

  datatype SixthStage = IIA | IIB | IIIA | IIIB | IIIC {
    function Label(): string {
      match this
      case IIA => "IIA"
      case IIB => "IIB"
      case IIIA => "IIIA"
      case IIIB => "IIIB"
      case IIIC => "IIIC"
    }

    function Code(): nat {
      match this
      case IIA => 0
      case IIB => 1
      case IIIA => 2
      case IIIB => 3
      case IIIC => 4
    }
  }

  function SixthStageFromCode(c: int): Option<SixthStage> {
    if c == 0 then Some(IIA) else if c == 1 then Some(IIB) else if c == 2 then Some(IIIA)
    else if c == 3 then Some(IIIB) else if c == 4 then Some(IIIC) else None
  }

  lemma SixthStageEncoding()
    ensures EnumeratesInOrder(SixthStageOptions, SixthStageMapping)
    ensures forall x: SixthStage :: Lookup(SixthStageMapping, x.Label()) == Some(x.Code())
    ensures forall x: SixthStage :: x.Code() < |SixthStageOptions| && SixthStageOptions[x.Code()] == x.Label()
    ensures forall x: SixthStage, y: SixthStage :: x.Code() == y.Code() ==> x == y
    ensures forall x: SixthStage :: SixthStageFromCode(x.Code()) == Some(x)
    ensures forall c: int :: SixthStageFromCode(c).Some? <==> 0 <= c < |SixthStageOptions|
    ensures forall c: int :: SixthStageFromCode(c).Some? ==> SixthStageFromCode(c).value.Code() == c
  {
  }

  // ---------- marital status (app.py:106, 128) ----------

  const MaritalOptions: seq<string> := ["Married", "Divorced", "Single", "Widowed", "Separated"]
  const MaritalMapping: map<string, nat> :=
    map["Married" := 0, "Divorced" := 1, "Single" := 2, "Widowed" := 3, "Separated" := 4]

  datatype MaritalStatus = Married | Divorced | Single | Widowed | Separated {
    function Label(): string {
      match this
      case Married => "Married"
      case Divorced => "Divorced"
      case Single => "Single"
      case Widowed => "Widowed"
      case Separated => "Separated"
    }

    function Code(): nat {
      match this
      case Married => 0
      case Divorced => 1
      case Single => 2
      case Widowed => 3
      case Separated => 4
    }
  }

  function MaritalFromCode(c: int): Option<MaritalStatus> {
    if c == 0 then Some(Married) else if c == 1 then Some(Divorced) else if c == 2 then Some(Single)
    else if c == 3 then Some(Widowed) else if c == 4 then Some(Separated) else None
  }

  lemma MaritalEncoding()
    ensures EnumeratesInOrder(MaritalOptions, MaritalMapping)
    ensures forall x: MaritalStatus :: Lookup(MaritalMapping, x.Label()) == Some(x.Code())
    ensures forall x: MaritalStatus :: x.Code() < |MaritalOptions| && MaritalOptions[x.Code()] == x.Label()
    ensures forall x: MaritalStatus, y: MaritalStatus :: x.Code() == y.Code() ==> x == y
    ensures forall x: MaritalStatus :: MaritalFromCode(x.Code()) == Some(x)
    ensures forall c: int :: MaritalFromCode(c).Some? <==> 0 <= c < |MaritalOptions|
    ensures forall c: int :: MaritalFromCode(c).Some? ==> MaritalFromCode(c).value.Code() == c
  {
  }

  // ---------- grade (app.py:107, 129) ----------

  const GradeOptions: seq<string> := ["1", "2", "3", "4"]
  const GradeMapping: map<string, nat> := map["1" := 0, "2" := 1, "3" := 2, "4" := 3]

  /** The cancer grade; its labels are the strings "1" to "4", encoded one lower. */
  datatype Grade = Grade1 | Grade2 | Grade3 | Grade4 {
    function Label(): string {
      match this
      case Grade1 => "1"
      case Grade2 => "2"
      case Grade3 => "3"
      case Grade4 => "4"
    }

    function Code(): nat {
      match this
      case Grade1 => 0
      case Grade2 => 1
      case Grade3 => 2
      case Grade4 => 3
    }
  }

  function GradeFromCode(c: int): Option<Grade> {
    if c == 0 then Some(Grade1) else if c == 1 then Some(Grade2) else if c == 2 then Some(Grade3)
    else if c == 3 then Some(Grade4) else None
  }

  lemma GradeEncoding()
    ensures EnumeratesInOrder(GradeOptions, GradeMapping)
    ensures forall x: Grade :: Lookup(GradeMapping, x.Label()) == Some(x.Code())
    ensures forall x: Grade :: x.Code() < |GradeOptions| && GradeOptions[x.Code()] == x.Label()
    ensures forall x: Grade, y: Grade :: x.Code() == y.Code() ==> x == y
    ensures forall x: Grade :: GradeFromCode(x.Code()) == Some(x)
    ensures forall c: int :: GradeFromCode(c).Some? <==> 0 <= c < |GradeOptions|
    ensures forall c: int :: GradeFromCode(c).Some? ==> GradeFromCode(c).value.Code() == c
  {
  }

  // ---------- A stage (app.py:108, 130) ----------

  const AStageOptions: seq<string> := ["Regional", "Distant"]
  const AStageMapping: map<string, nat> := map["Regional" := 0, "Distant" := 1]

  datatype AStage = Regional | Distant {
    function Label(): string {
      match this
      case Regional => "Regional"
      case Distant => "Distant"
    }

    function Code(): nat {
      match this
      case Regional => 0
      case Distant => 1
    }
  }

  function AStageFromCode(c: int): Option<AStage> {
    if c == 0 then Some(Regional) else if c == 1 then Some(Distant) else None
  }

  lemma AStageEncoding()
    ensures EnumeratesInOrder(AStageOptions, AStageMapping)
    ensures forall x: AStage :: Lookup(AStageMapping, x.Label()) == Some(x.Code())
    ensures forall x: AStage :: x.Code() < |AStageOptions| && AStageOptions[x.Code()] == x.Label()
    ensures forall x: AStage, y: AStage :: x.Code() == y.Code() ==> x == y
    ensures forall x: AStage :: AStageFromCode(x.Code()) == Some(x)
    ensures forall c: int :: AStageFromCode(c).Some? <==> 0 <= c < |AStageOptions|
    ensures forall c: int :: AStageFromCode(c).Some? ==> AStageFromCode(c).value.Code() == c
  {
  }

  // ---------- estrogen and progesterone status (app.py:110-111, 131-132) ----------

  const EstrogenOptions: seq<string> := ["Positive", "Negative"]
  const EstrogenMapping: map<string, nat> := map["Positive" := 0, "Negative" := 1]
  const ProgesteroneOptions: seq<string> := ["Positive", "Negative"]
  const ProgesteroneMapping: map<string, nat> := map["Positive" := 0, "Negative" := 1]

  /** A hormone-receptor status, the value domain of both the estrogen and the progesterone field. */
  datatype HormoneStatus = Positive | Negative {
    function Label(): string {
      match this
      case Positive => "Positive"
      case Negative => "Negative"
    }

    function Code(): nat {
      match this
      case Positive => 0
      case Negative => 1
    }
  }

  function HormoneFromCode(c: int): Option<HormoneStatus> {
    if c == 0 then Some(Positive) else if c == 1 then Some(Negative) else None
  }

  lemma HormoneEncoding()
    ensures EnumeratesInOrder(EstrogenOptions, EstrogenMapping)
    ensures EnumeratesInOrder(ProgesteroneOptions, ProgesteroneMapping)
    ensures forall x: HormoneStatus :: Lookup(EstrogenMapping, x.Label()) == Some(x.Code())
    ensures forall x: HormoneStatus :: Lookup(ProgesteroneMapping, x.Label()) == Some(x.Code())
    ensures forall x: HormoneStatus :: x.Code() < |EstrogenOptions| && EstrogenOptions[x.Code()] == x.Label()
    ensures forall x: HormoneStatus :: x.Code() < |ProgesteroneOptions| && ProgesteroneOptions[x.Code()] == x.Label()
    ensures forall x: HormoneStatus, y: HormoneStatus :: x.Code() == y.Code() ==> x == y
    ensures forall x: HormoneStatus :: HormoneFromCode(x.Code()) == Some(x)
    ensures forall c: int :: HormoneFromCode(c).Some? <==> 0 <= c < |EstrogenOptions|
    ensures forall c: int :: HormoneFromCode(c).Some? ==> HormoneFromCode(c).value.Code() == c
  {
  }

  /** Each of the nine tables has exactly as many entries as its widget has options, and a
      label outside those options is a `KeyError`. */
  lemma TableSizesAndKeys()
    ensures |RaceMapping| == |RaceOptions| == 3
    ensures forall s :: Lookup(RaceMapping, s).Some? <==> s in RaceOptions
    ensures |TStageMapping| == |TStageOptions| == 4
    ensures forall s :: Lookup(TStageMapping, s).Some? <==> s in TStageOptions
    ensures |NStageMapping| == |NStageOptions| == 3
    ensures forall s :: Lookup(NStageMapping, s).Some? <==> s in NStageOptions
    ensures |SixthStageMapping| == |SixthStageOptions| == 5
    ensures forall s :: Lookup(SixthStageMapping, s).Some? <==> s in SixthStageOptions
    ensures |MaritalMapping| == |MaritalOptions| == 5
    ensures forall s :: Lookup(MaritalMapping, s).Some? <==> s in MaritalOptions
    ensures |GradeMapping| == |GradeOptions| == 4
    ensures forall s :: Lookup(GradeMapping, s).Some? <==> s in GradeOptions
    ensures |AStageMapping| == |AStageOptions| == 2
    ensures forall s :: Lookup(AStageMapping, s).Some? <==> s in AStageOptions
    ensures |EstrogenMapping| == |EstrogenOptions| == 2
    ensures forall s :: Lookup(EstrogenMapping, s).Some? <==> s in EstrogenOptions
    ensures |ProgesteroneMapping| == |ProgesteroneOptions| == 2
    ensures forall s :: Lookup(ProgesteroneMapping, s).Some? <==> s in ProgesteroneOptions
  {
    RaceEncoding();
    TStageEncoding();
    NStageEncoding();
    SixthStageEncoding();
    MaritalEncoding();
    GradeEncoding();
    AStageEncoding();
    HormoneEncoding();
    EnumerationIsBijective(RaceOptions, RaceMapping);
    EnumerationIsBijective(TStageOptions, TStageMapping);
    EnumerationIsBijective(NStageOptions, NStageMapping);
    EnumerationIsBijective(SixthStageOptions, SixthStageMapping);
    EnumerationIsBijective(MaritalOptions, MaritalMapping);
    EnumerationIsBijective(GradeOptions, GradeMapping);
    EnumerationIsBijective(AStageOptions, AStageMapping);
    EnumerationIsBijective(EstrogenOptions, EstrogenMapping);
    EnumerationIsBijective(ProgesteroneOptions, ProgesteroneMapping);
  }
}
