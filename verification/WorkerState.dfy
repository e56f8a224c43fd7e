/** apps/worker/src/worker-state.ts: the settings changed on a worker's screen, and the file that keeps them. */
module WorkerState {
  import opened Wrappers

  datatype Json =
    | Null
    | Bool(value: bool)
    | Number(number: real)
    | String(text: string)
    | Array(items: seq<Json>)
    | Object(fields: map<string, Json>)

  datatype StateFile = Missing | Unreadable | Holds(json: Json)

  datatype Settings = Settings(labels: seq<string>, concurrency: int, defaultAgent: string)

  /** What differs from the configuration file. */
  datatype Overrides = Overrides(labels: Option<seq<string>>, concurrency: Option<int>, defaultAgent: Option<string>)

  const NO_OVERRIDES := Overrides(None, None, None)

  datatype SettingError = NoLabels | BadConcurrency | UnknownAgent

  // ----- The file -----

  function Member(json: Json, key: string): Option<Json> {
    if json.Object? && key in json.fields then Some(json.fields[key]) else None
  }

  /** The strings of an array that are not blank. */
  function UsableLabels(items: seq<Json>): seq<string> {
    if items == [] then []
    else
      var before, last := UsableLabels(items[..|items| - 1]), items[|items| - 1];
      if last.String? && !Blank(last.text) then before + [last.text] else before
  }

  /** The number is this integer. */
  predicate IsWhole(n: real, k: int) {
    n == k as real
  }

  predicate InRange(n: real) {
    n == n.Floor as real && 1.0 <= n <= 32.0
  }

  function ReadLabels(json: Option<Json>): Option<seq<string>> {
    if json.Some? && json.value.Array? && UsableLabels(json.value.items) != []
    then Some(UsableLabels(json.value.items)) else None
  }

  function ReadConcurrency(json: Option<Json>): Option<int> {
    if json.Some? && json.value.Number? && InRange(json.value.number) then Some(json.value.number.Floor) else None
  }

  function ReadAgent(json: Option<Json>): Option<string> {
    if json.Some? && json.value.String? && !Blank(json.value.text) then Some(json.value.text) else None
  }

  function Read(file: StateFile): Overrides {
    if !file.Holds? then NO_OVERRIDES
    else Overrides(ReadLabels(Member(file.json, "labels")), ReadConcurrency(Member(file.json, "concurrency")),
                   ReadAgent(Member(file.json, "defaultAgent")))
  }

  function Strings(labels: seq<string>): (items: seq<Json>)
    ensures |items| == |labels| && forall i :: 0 <= i < |labels| ==> items[i] == String(labels[i])
  {
    seq(|labels|, i requires 0 <= i < |labels| => String(labels[i]))
  }

  function Optional(key: string, json: Option<Json>): map<string, Json> {
    if json.Some? then map[key := json.value] else map[]
  }

  function Written(o: Overrides): StateFile {
    if o == NO_OVERRIDES then Missing
    else Holds(Object(
      Optional("labels", if o.labels.Some? then Some(Array(Strings(o.labels.value))) else None)
      + Optional("concurrency", if o.concurrency.Some? then Some(Number(o.concurrency.value as real)) else None)
      + Optional("defaultAgent", if o.defaultAgent.Some? then Some(String(o.defaultAgent.value)) else None)))
  }

  // ----- The settings -----

  function Effective(configured: Settings, o: Overrides): Settings {
    Settings(o.labels.GetOr(configured.labels), o.concurrency.GetOr(configured.concurrency),
             o.defaultAgent.GetOr(configured.defaultAgent))
  }

  /** The first occurrence of each, in order. */
  function Distinct(q: seq<string>): (r: seq<string>)
    ensures SetOf(r) == SetOf(q)
    ensures forall i, j :: 0 <= i < j < |r| ==> r[i] != r[j]
  {
    if q == [] then []
    else
      var before, last := Distinct(q[..|q| - 1]), q[|q| - 1];
      assert q == q[..|q| - 1] + [last];
      assert SetOf(q) == SetOf(q[..|q| - 1]) + {last};
      if last in before then
        assert last in SetOf(before);
        before
      else
        assert SetOf(before + [last]) == SetOf(before) + {last};
        before + [last]
  }

  function NonBlankTrimmed(labels: seq<string>): (r: seq<string>)
    ensures SetOf(r) == set x <- labels | !Blank(x) :: Trim(x)
  {
    if labels == [] then []
    else
      var before, last := NonBlankTrimmed(labels[..|labels| - 1]), labels[|labels| - 1];
      assert labels == labels[..|labels| - 1] + [last];
      if Blank(last) then before
      else
        assert SetOf(before + [Trim(last)]) == SetOf(before) + {Trim(last)};
        before + [Trim(last)]
  }

  function Cleaned(labels: seq<string>): seq<string> {
    Distinct(NonBlankTrimmed(labels))
  }

  /** As long as the other list, and all of it in there. */
  predicate SameSet(a: seq<string>, b: seq<string>) {
    |a| == |b| && forall x <- a :: x in b
  }

  /** One change, None meaning "as configured". */
  datatype Change =
    | OfLabels(labels: Option<seq<string>>)
    | OfConcurrency(concurrency: Option<int>)
    | OfAgent(agent: Option<string>)

  function Changed(o: Overrides, change: Change): Overrides {
    match change
    case OfLabels(labels) => o.(labels := labels)
    case OfConcurrency(concurrency) => o.(concurrency := concurrency)
    case OfAgent(agent) => o.(defaultAgent := agent)
  }

  datatype Setting =
    | Labels(labels: seq<string>)
    | Concurrency(n: real)
    | Agent(agent: string, known: seq<string>)
    | Reset

  /** The change a setting amounts to; None when it is refused, or a reset. */
  function ChangeFor(configured: Settings, s: Setting): Result<Change, SettingError>
    requires !s.Reset?
  {
    match s
    case Labels(labels) =>
      var cleaned := Cleaned(labels);
      if cleaned == [] then Err(NoLabels)
      else Ok(OfLabels(if SameSet(cleaned, configured.labels) then None else Some(cleaned)))
    case Concurrency(n) =>
      if !InRange(n) then Err(BadConcurrency)
      else Ok(OfConcurrency(if n.Floor == configured.concurrency then None else Some(n.Floor)))
    case Agent(agent, known) =>
      if agent !in known then Err(UnknownAgent)
      else Ok(OfAgent(if agent == configured.defaultAgent then None else Some(agent)))
  }

  /** Overrides and file. */
  datatype State = State(overrides: Overrides, file: StateFile)

  function Apply(configured: Settings, st: State, s: Setting): State {
    if s.Reset? then State(NO_OVERRIDES, Missing)
    else
      match ChangeFor(configured, s)
      case Err(_) => st
      case Ok(change) => State(Changed(st.overrides, change), Written(Changed(st.overrides, change)))
  }

  class WorkerState {
    const configured: Settings
    var overrides: Overrides
    var file: StateFile

    constructor (configured: Settings, file: StateFile)
      ensures this.configured == configured && Current() == State(Read(file), file)
    {
      this.configured, this.file, overrides := configured, file, Read(file);
    }

    function Current(): (st: State)
      reads this
    {
      State(overrides, file)
    }

    method ResetAll()
      modifies this
      ensures Current() == Apply(configured, old(Current()), Reset)
    {
      overrides, file := NO_OVERRIDES, Missing;
    }

    /** Nothing left to keep removes the file. */
    method Patch(change: Change)
      modifies this
      ensures Current() == State(Changed(old(overrides), change), Written(Changed(old(overrides), change)))
    {
      match change {
        case OfLabels(labels) => overrides := overrides.(labels := labels);
        case OfConcurrency(concurrency) => overrides := overrides.(concurrency := concurrency);
        case OfAgent(agent) => overrides := overrides.(defaultAgent := agent);
      }
      if overrides == NO_OVERRIDES {
        ResetAll();
      } else {
        file := Written(overrides);
      }
    }

    method SetLabels(labels: seq<string>) returns (r: Result<seq<string>, SettingError>)
      modifies this
      ensures Current() == Apply(configured, old(Current()), Labels(labels))
      ensures r.Err? <==> forall x <- labels :: Blank(x)
      ensures r.Ok? ==> SetOf(r.value) == set x <- labels | !Blank(x) :: Trim(x)
    {
      var cleaned := Cleaned(labels);
      CleanedIsEmpty(labels);
      if cleaned == [] {
        return Err(NoLabels);
      }
      Patch(OfLabels(if SameSet(cleaned, configured.labels) then None else Some(cleaned)));
      SameSetTells(cleaned, configured.labels);
      r := Ok(Effective(configured, overrides).labels);
    }

    method SetConcurrency(n: real) returns (r: Result<int, SettingError>)
      modifies this
      ensures Current() == Apply(configured, old(Current()), Concurrency(n))
      ensures r.Ok? <==> exists k :: 1 <= k <= 32 && IsWhole(n, k)
      ensures r.Ok? ==> r.value as real == n
      ensures r.Err? ==> r.error == BadConcurrency
    {
      InRangeTells(n);
      if !InRange(n) {
        return Err(BadConcurrency);
      }
      Patch(OfConcurrency(if n.Floor == configured.concurrency then None else Some(n.Floor)));
      r := Ok(Effective(configured, overrides).concurrency);
    }

    method SetDefaultAgent(agent: string, known: seq<string>) returns (r: Result<string, SettingError>)
      modifies this
      ensures Current() == Apply(configured, old(Current()), Agent(agent, known))
      ensures r == if agent in known then Ok(agent) else Err(UnknownAgent)
    {
      if agent !in known {
        return Err(UnknownAgent);
      }
      Patch(OfAgent(if agent == configured.defaultAgent then None else Some(agent)));
      r := Ok(Effective(configured, overrides).defaultAgent);
    }
  }

  // ----- Labels -----

  lemma CleanedIsEmpty(labels: seq<string>)
    ensures Cleaned(labels) == [] <==> forall x <- labels :: Blank(x)
  {
    var cleaned := Cleaned(labels);
    if cleaned == [] {
      forall x <- labels ensures Blank(x) {
        assert !Blank(x) ==> Trim(x) in SetOf(cleaned);
      }
    } else {
      assert cleaned[0] in SetOf(cleaned);
    }
  }

  /** A list is as long as its set exactly when nothing occurs twice. */
  lemma {:induction false} DistinctLength(q: seq<string>)
    ensures |SetOf(q)| <= |q|
    ensures |SetOf(q)| == |q| <==> forall i, j :: 0 <= i < j < |q| ==> q[i] != q[j]
    decreases |q|
  {
    if q == [] {
      assert SetOf(q) == {};
    } else {
      var before, last := q[..|q| - 1], q[|q| - 1];
      DistinctLength(before);
      assert SetOf(q) == SetOf(before) + {last};
      assert last in SetOf(before) <==> exists i :: 0 <= i < |before| && q[i] == last;
    }
  }

  /**
    * For a list without repetitions the length test is enough, by the pigeonhole principle: it
    * holds exactly when the two lists have the same elements and the other repeats none either.
    */
  lemma SameSetTells(a: seq<string>, b: seq<string>)
    requires forall i, j :: 0 <= i < j < |a| ==> a[i] != a[j]
    ensures SameSet(a, b) <==> SetOf(a) == SetOf(b) && forall i, j :: 0 <= i < j < |b| ==> b[i] != b[j]
  {
    DistinctLength(a);
    DistinctLength(b);
    if SameSet(a, b) {
      assert SetOf(a) <= SetOf(b);
      SubsetOfSameSize(SetOf(a), SetOf(b));
    } else if SetOf(a) == SetOf(b) {
      assert forall x <- a :: x in SetOf(a);
    }
  }

  lemma SubsetOfSameSize(a: set<string>, b: set<string>)
    requires a <= b && |b| <= |a|
    ensures a == b
  {
    assert b == a + (b - a);
  }

  // ----- What a setting changes -----

  /** The whole numbers from 1 to 32. */
  lemma InRangeTells(n: real)
    ensures InRange(n) <==> exists k :: 1 <= k <= 32 && IsWhole(n, k)
  {
    if InRange(n) {
      assert 1 <= n.Floor <= 32 && IsWhole(n, n.Floor);
    }
  }

  /** No change but to the override named; a value like the configured one leaves none. The file goes with the last. */
  lemma SettingTells(configured: Settings, st: State, s: Setting)
    ensures var next := Apply(configured, st, s);
      match s
      case Reset => next == State(NO_OVERRIDES, Missing)
      case Labels(labels) =>
        if forall x <- labels :: Blank(x) then next == st
        else
          && next.overrides == st.overrides.(labels := next.overrides.labels)
          && (next.overrides.labels.None? <==>
                SetOf(configured.labels) == (set x <- labels | !Blank(x) :: Trim(x))
                && forall i, j :: 0 <= i < j < |configured.labels| ==> configured.labels[i] != configured.labels[j])
          && (next.overrides.labels.Some? ==> next.overrides.labels.value == Cleaned(labels))
      case Concurrency(n) =>
        if !exists k :: 1 <= k <= 32 && IsWhole(n, k) then next == st
        else
          && next.overrides == st.overrides.(concurrency := next.overrides.concurrency)
          && Effective(configured, next.overrides).concurrency as real == n
          && (next.overrides.concurrency.None? <==> n == configured.concurrency as real)
      case Agent(agent, known) =>
        if agent !in known then next == st
        else next.overrides == st.overrides.(defaultAgent := if agent == configured.defaultAgent then None
                                                             else Some(agent))
  {
    match s
    case Labels(labels) =>
      CleanedIsEmpty(labels);
      SameSetTells(Cleaned(labels), configured.labels);
    case Concurrency(n) => InRangeTells(n);
    case _ =>
  }

  /** After a setting that is taken there is a file exactly while something is overridden. */
  lemma FileFollows(configured: Settings, st: State, s: Setting)
    requires st.file.Missing? <==> st.overrides == Overrides(None, None, None)
    ensures var next := Apply(configured, st, s);
      next.file.Missing? <==> next.overrides == Overrides(None, None, None)
  {}

  // ----- The order of labels -----

  /** Where an element occurs first. */
  function FirstAt(q: seq<string>, x: string): (i: nat)
    requires x in q
    ensures i < |q| && q[i] == x && forall k :: 0 <= k < i ==> q[k] != x
  {
    if q[0] == x then 0 else 1 + FirstAt(q[1..], x)
  }

  lemma {:induction false} DistinctInOrder(q: seq<string>, i: nat, j: nat)
    requires i < j < |Distinct(q)|
    ensures Distinct(q)[i] in q && Distinct(q)[j] in q && FirstAt(q, Distinct(q)[i]) < FirstAt(q, Distinct(q)[j])
    decreases |q|
  {
    var before, r := q[..|q| - 1], Distinct(q);
    assert r[i] in SetOf(r) && r[j] in SetOf(r);
    if j < |Distinct(before)| {
      DistinctInOrder(before, i, j);
      FirstInPrefix(q, r[i]);
      FirstInPrefix(q, r[j]);
    } else {
      assert r[i] in SetOf(Distinct(before)) && r[j] == q[|q| - 1];
      assert r[j] !in SetOf(before);
      FirstInPrefix(q, r[i]);
    }
  }

  lemma FirstInPrefix(q: seq<string>, x: string)
    requires q != [] && x in q[..|q| - 1]
    ensures FirstAt(q, x) == FirstAt(q[..|q| - 1], x)
  {
    var i, j := FirstAt(q, x), FirstAt(q[..|q| - 1], x);
    assert q[j] == x && (i < |q| - 1 ==> q[..|q| - 1][i] == x);
  }

  lemma {:induction false} NonBlankJoin(a: seq<string>, b: seq<string>)
    ensures NonBlankTrimmed(a + b) == NonBlankTrimmed(a) + NonBlankTrimmed(b)
    decreases |b|
  {
    if b == [] {
      assert a + b == a;
    } else {
      NonBlankJoin(a, b[..|b| - 1]);
      assert (a + b)[..|a + b| - 1] == a + b[..|b| - 1];
    }
  }

  /** Cleaning trims each label, drops the blank ones, and keeps the rest in the order of their first occurrence. */
  lemma CleanedTells(labels: seq<string>, x: string, i: nat, j: nat)
    requires i < j < |Cleaned(labels)|
    ensures var trimmed := NonBlankTrimmed(labels);
      && NonBlankTrimmed(labels + [x])
         == trimmed + (if forall k :: 0 <= k < |x| ==> IsSpace(x[k]) then [] else [Trim(x)])
      && Cleaned(labels)[i] in trimmed && Cleaned(labels)[j] in trimmed
      && FirstAt(trimmed, Cleaned(labels)[i]) < FirstAt(trimmed, Cleaned(labels)[j])
  {
    BlankTells(x);
    NonBlankJoin(labels, [x]);
    assert NonBlankTrimmed([x]) == if Blank(x) then [] else [Trim(x)];
    DistinctInOrder(NonBlankTrimmed(labels), i, j);
  }

  // ----- Save and load -----

  /** Values the loader keeps. */
  predicate Storable(o: Overrides) {
    && (o.labels.Some? ==> o.labels.value != [] && forall x <- o.labels.value :: !Blank(x))
    && (o.concurrency.Some? ==> 1 <= o.concurrency.value <= 32)
  }

  predicate BlankAgent(o: Overrides) {
    o.defaultAgent.Some? && Blank(o.defaultAgent.value)
  }

  lemma {:induction false} StringsAreUsable(labels: seq<string>)
    requires forall x <- labels :: !Blank(x)
    ensures UsableLabels(Strings(labels)) == labels
    decreases |labels|
  {
    if labels != [] {
      var n := |labels| - 1;
      StringsAreUsable(labels[..n]);
      assert Strings(labels)[..n] == Strings(labels[..n]);
      assert labels[..n] + [labels[n]] == labels;
    }
  }

  /** Loading what was saved gives it back, but for a blank agent name. */
  lemma SavedIsLoaded(o: Overrides)
    requires Storable(o)
    ensures Read(Written(o)) == if BlankAgent(o) then o.(defaultAgent := None) else o
  {
    if o.labels.Some? {
      StringsAreUsable(o.labels.value);
    }
    if o.concurrency.Some? {
      assert (o.concurrency.value as real).Floor == o.concurrency.value;
    }
  }

  lemma {:induction false} UsableJoin(a: seq<Json>, b: seq<Json>)
    ensures UsableLabels(a + b) == UsableLabels(a) + UsableLabels(b)
    decreases |b|
  {
    if b == [] {
      assert a + b == a;
    } else {
      UsableJoin(a, b[..|b| - 1]);
      assert (a + b)[..|a + b| - 1] == a + b[..|b| - 1];
    }
  }

  /** Of a list of labels the strings that are not blank are kept, in order and as they are. */
  lemma UsableTells(items: seq<Json>, item: Json)
    ensures UsableLabels([]) == []
    ensures UsableLabels(items + [item]) == UsableLabels(items) +
      if item.String? && (exists k :: 0 <= k < |item.text| && !IsSpace(item.text[k])) then [item.text] else []
  {
    UsableJoin(items, [item]);
    assert [item][..0] == [];
    if item.String? {
      BlankTells(item.text);
    }
  }

  /** What is found in the file, key by key; anything else there counts as absent. */
  lemma ReadTells(file: StateFile)
    ensures !(file.Holds? && file.json.Object?) ==> Read(file) == Overrides(None, None, None)
    ensures file.Holds? && file.json.Object? ==>
      var fields, o := file.json.fields, Read(file);
      && (o.labels.Some? <==>
            && "labels" in fields && fields["labels"].Array? && UsableLabels(fields["labels"].items) != [])
      && (o.labels.Some? ==> o.labels.value == UsableLabels(fields["labels"].items))
      && (o.concurrency.Some? <==>
            && "concurrency" in fields && fields["concurrency"].Number?
            && exists k :: 1 <= k <= 32 && IsWhole(fields["concurrency"].number, k))
      && (o.concurrency.Some? ==> fields["concurrency"].number == o.concurrency.value as real)
      && (o.defaultAgent.Some? <==>
            && "defaultAgent" in fields && fields["defaultAgent"].String?
            && exists k :: 0 <= k < |fields["defaultAgent"].text| && !IsSpace(fields["defaultAgent"].text[k]))
      && (o.defaultAgent.Some? ==> o.defaultAgent.value == fields["defaultAgent"].text)
  {
    if file.Holds? && file.json.Object? {
      var fields := file.json.fields;
      if "concurrency" in fields && fields["concurrency"].Number? {
        InRangeTells(fields["concurrency"].number);
      }
      if "defaultAgent" in fields && fields["defaultAgent"].String? {
        BlankTells(fields["defaultAgent"].text);
      }
    }
  }

  /** What a restart makes of saved overrides: a blank agent name is dropped. */
  function Reloaded(o: Overrides): Overrides {
    if BlankAgent(o) then o.(defaultAgent := None) else o
  }

  lemma {:induction false} UsableLabelsAreNotBlank(items: seq<Json>)
    ensures forall x <- UsableLabels(items) :: !Blank(x)
    decreases |items|
  {
    if items != [] {
      UsableLabelsAreNotBlank(items[..|items| - 1]);
    }
  }

  lemma LoadedIsStorable(file: StateFile)
    ensures Storable(Read(file)) && !BlankAgent(Read(file))
  {
    if file.Holds? {
      var labels := Member(file.json, "labels");
      if labels.Some? && labels.value.Array? {
        UsableLabelsAreNotBlank(labels.value.items);
      }
    }
  }

  lemma CleanedIsNotBlank(labels: seq<string>)
    ensures forall x <- Cleaned(labels) :: !Blank(x)
  {
    forall x <- Cleaned(labels) ensures !Blank(x) {
      assert x in SetOf(Cleaned(labels));
      var y :| y in labels && !Blank(y) && x == Trim(y);
      TrimmedStays(y);
    }
  }

  /** The file holds what a restart is to find. */
  predicate Saved(st: State) {
    Storable(st.overrides) && Read(st.file) == Reloaded(st.overrides)
  }

  lemma SettingKeepsSaved(configured: Settings, st: State, s: Setting)
    requires Saved(st)
    ensures Saved(Apply(configured, st, s))
  {
    if !s.Reset? && ChangeFor(configured, s).Ok? {
      var next := Changed(st.overrides, ChangeFor(configured, s).value);
      if s.Labels? {
        CleanedIsNotBlank(s.labels);
      }
      SavedIsLoaded(next);
    }
  }

  function ApplyAll(configured: Settings, st: State, settings: seq<Setting>): State {
    if settings == [] then st
    else Apply(configured, ApplyAll(configured, st, settings[..|settings| - 1]), settings[|settings| - 1])
  }

  /**
    * Whatever the file held when the worker started, and whatever has been set since: a restart
    * finds the overrides in force, exactly when the default agent is not overridden by a blank name.
    */
  lemma {:induction false} RestartFindsOverrides(configured: Settings, file: StateFile, settings: seq<Setting>)
    ensures var st := ApplyAll(configured, State(Read(file), file), settings);
      Saved(st) && (Read(st.file) == st.overrides <==> !BlankAgent(st.overrides))
    decreases |settings|
  {
    if settings == [] {
      LoadedIsStorable(file);
    } else {
      RestartFindsOverrides(configured, file, settings[..|settings| - 1]);
      SettingKeepsSaved(configured, ApplyAll(configured, State(Read(file), file), settings[..|settings| - 1]),
                        settings[|settings| - 1]);
    }
  }

  /** Setting labels leaves the worker asking for exactly the cleaned ones, also where the override is dropped. */
  lemma LabelsInForce(configured: Settings, st: State, labels: seq<string>)
    requires Cleaned(labels) != []
    ensures SetOf(Effective(configured, Apply(configured, st, Labels(labels)).overrides).labels)
         == set x <- labels | !Blank(x) :: Trim(x)
  {
    SameSetTells(Cleaned(labels), configured.labels);
  }
}
