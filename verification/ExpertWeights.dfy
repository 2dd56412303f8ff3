/** Loading of expert weights (vllm_add_llada_moe/llada_moe_vllm.py and fused_moe_minimal.py):
    checkpoint names are matched by substring against a table of printed names, and the expert
    number is parsed back out of the name. */
module ExpertWeights {
  import opened Wrappers

  // ---------------------------------------------------------------------------
  // Decimal numbers
  // ---------------------------------------------------------------------------

  function Digit(d: nat): char
    requires d < 10
  {
    "0123456789"[d]
  }

  predicate IsDigit(c: char) { '0' <= c <= '9' }

  function Decimal(n: nat): (s: string)
    ensures s != ""
  {
    if n < 10 then [Digit(n)] else Decimal(n / 10) + [Digit(n % 10)]
  }

  /** Python's `int` on a string of digits. */
  function Parse(s: string): Option<nat> {
    if s == "" || !IsDigit(s[|s| - 1]) then None
    else
      var d := s[|s| - 1] as int - '0' as int;
      if |s| == 1 then Some(d)
      else match Parse(s[..|s| - 1])
        case None => None
        case Some(n) => Some(10 * n + d)
  }

  lemma DigitValue(d: nat)
    requires d < 10
    ensures IsDigit(Digit(d)) && Digit(d) as int - '0' as int == d
  {
  }

  /** Printing and parsing a number gives it back. */
  lemma {:induction false} ParseDecimal(n: nat)
    ensures Parse(Decimal(n)) == Some(n)
    ensures forall c :: c in Decimal(n) ==> IsDigit(c)
  {
    DigitValue(n % 10);
    var s := Decimal(n);
    if n >= 10 {
      ParseDecimal(n / 10);
      assert s[..|s| - 1] == Decimal(n / 10);
    } else {
      DigitValue(n);
    }
  }

  /** Exactly the non-empty strings of digits are numbers, and each digit counts ten times the next. */
  lemma {:induction false} ParseIff(s: string)
    ensures Parse(s).Some? <==> s != "" && forall c :: c in s ==> IsDigit(c)
  {
    if s != "" {
      var p := s[..|s| - 1];
      assert s == p + [s[|s| - 1]];
      ParseIff(p);
    }
  }

  lemma ParseMore(s: string, d: nat)
    requires d < 10 && Parse(s).Some?
    ensures Parse(s + [Digit(d)]) == Some(10 * Parse(s).value + d) && Parse([Digit(d)]) == Some(d)
  {
    DigitValue(d);
    assert (s + [Digit(d)])[..|s|] == s;
  }

  lemma DecimalInjective(a: nat, b: nat)
    requires Decimal(a) == Decimal(b)
    ensures a == b
  {
    ParseDecimal(a);
    ParseDecimal(b);
  }

  // ---------------------------------------------------------------------------
  // Names with dots
  // ---------------------------------------------------------------------------

  /** Python's `s.split(".")`. */
  function Split(s: string): (parts: seq<string>)
    ensures |parts| >= 1
  {
    if s == "" then [""]
    else
      var rest := Split(s[1..]);
      if s[0] == '.' then [""] + rest else [[s[0]] + rest[0]] + rest[1..]
  }

  predicate NoDot(s: string) { '.' !in s }

  /** The last part of `a` and the first part of `b` run together. */
  function Glue(a: seq<string>, b: seq<string>): seq<string>
    requires |a| >= 1 && |b| >= 1
  {
    a[..|a| - 1] + [a[|a| - 1] + b[0]] + b[1..]
  }

  lemma {:induction false} SplitSum(a: string, b: string)
    ensures Split(a + b) == Glue(Split(a), Split(b))
  {
    if a == "" {
      assert a + b == b;
      assert "" + Split(b)[0] == Split(b)[0];
    } else {
      assert (a + b)[1..] == a[1..] + b;
      SplitSum(a[1..], b);
      var r := Split(a[1..]);
      if a[0] == '.' {
        assert Glue([""] + r, Split(b)) == [""] + Glue(r, Split(b));
      } else {
        GlueHead(a[0], r, Split(b));
      }
    }
  }

  lemma GlueHead(c: char, r: seq<string>, b: seq<string>)
    requires |r| >= 1 && |b| >= 1
    ensures Glue([[c] + r[0]] + r[1..], b) == [[c] + Glue(r, b)[0]] + Glue(r, b)[1..]
  {
    if |r| == 1 {
      assert [c] + r[0] + b[0] == [c] + (r[0] + b[0]);
    }
  }

  /** Parts joined by dots. */
  function Join(parts: seq<string>): string {
    if parts == [] then "" else if |parts| == 1 then parts[0] else Join(parts[..|parts| - 1]) + "." + parts[|parts| - 1]
  }

  lemma {:induction false} SplitPlain(s: string)
    requires NoDot(s)
    ensures Split(s) == [s]
  {
    if s != "" {
      SplitPlain(s[1..]);
      assert [s[0]] + s[1..] == s;
    }
  }

  lemma SplitDotted(s: string)
    requires NoDot(s)
    ensures Split("." + s) == ["", s]
  {
    SplitPlain(s);
    assert ("." + s)[1..] == s;
  }

  lemma {:induction false} SplitJoin(parts: seq<string>)
    requires |parts| >= 1 && forall i :: 0 <= i < |parts| ==> NoDot(parts[i])
    ensures Split(Join(parts)) == parts
  {
    var n := |parts| - 1;
    if n == 0 {
      SplitPlain(parts[0]);
    } else {
      var p := parts[..n];
      SplitJoin(p);
      assert Join(parts) == Join(p) + ("." + parts[n]);
      SplitSum(Join(p), "." + parts[n]);
      SplitDotted(parts[n]);
      GlueNew(p, parts[n]);
      assert p + [parts[n]] == parts;
    }
  }

  lemma GlueNew(p: seq<string>, s: string)
    requires |p| >= 1
    ensures Glue(p, ["", s]) == p + [s]
  {
    assert p[|p| - 1] + "" == p[|p| - 1];
    assert p[..|p| - 1] + [p[|p| - 1]] == p;
  }

  /** If a joined name with a final dot occurs in another name, its parts, except perhaps the
      first, are consecutive parts of that name, and something follows. */
  lemma OccurrenceParts(s: string, q: seq<string>, i: nat)
    requires |q| >= 1 && (forall k :: 0 <= k < |q| ==> NoDot(q[k])) && OccursAt(s, Join(q + [""]), i)
    ensures exists j: nat :: PartsAt(Split(s), q, j)
  {
    var p := Join(q + [""]);
    var x, y := s[..i], s[i + |p|..];
    assert s == x + (p + y);
    SplitJoin(q + [""]);
    SplitSum(p, y);
    PartsOfSum(x, p + y, q);
  }

  lemma PartsOfSum(x: string, t: string, q: seq<string>)
    requires |Split(t)| > |q| >= 1 && Split(t)[..|q|] == q
    ensures PartsAt(Split(x + t), q, |Split(x)| - 1)
  {
    SplitSum(x, t);
    var a, b := Split(x), Split(t);
    forall k | 1 <= k < |q| ensures Glue(a, b)[|a| - 1 + k] == q[k] {
      assert b[k] == b[..|q|][k];
      GlueBehind(a, b, k);
    }
  }

  lemma GlueBehind(a: seq<string>, b: seq<string>, k: nat)
    requires |a| >= 1 && 1 <= k < |b|
    ensures |Glue(a, b)| == |a| + |b| - 1 && Glue(a, b)[|a| - 1 + k] == b[k]
  {
  }

  ghost predicate PartsAt(parts: seq<string>, q: seq<string>, j: nat) {
    j + |q| < |parts| && forall k :: 1 <= k < |q| ==> parts[j + k] == q[k]
  }

  // ---------------------------------------------------------------------------
  // Expert names
  // ---------------------------------------------------------------------------

  datatype Proj = Gate | Up | Down {
    function Name(): string { match this case Gate => "gate_proj" case Up => "up_proj" case Down => "down_proj" }
  }

  /** One expert weight: layer, expert, projection. */
  datatype Key = Key(layer: nat, expert: nat, proj: Proj) {
    function Parts(): seq<string> {
      ["model", "layers", Decimal(layer), "mlp", "experts", Decimal(expert), proj.Name()]
    }
    /** The checkpoint name, and the pattern in the mapping table. */
    function Name(): string { Join(Parts() + ["weight"]) }
    function Pattern(): string { Join(Parts() + [""]) }
  }

  lemma DigitsNoDot(n: nat)
    ensures NoDot(Decimal(n))
  {
    ParseDecimal(n);
  }

  lemma PartsNoDot(k: Key, last: string)
    requires NoDot(last)
    ensures forall i :: 0 <= i < 8 ==> NoDot((k.Parts() + [last])[i])
  {
    DigitsNoDot(k.layer);
    DigitsNoDot(k.expert);
  }

  lemma SplitName(k: Key)
    ensures Split(k.Name()) == k.Parts() + ["weight"]
  {
    PartsNoDot(k, "weight");
    SplitJoin(k.Parts() + ["weight"]);
  }

  /** Names and patterns, written out. */
  lemma NameIs(k: Key)
    ensures Gate.Name() == "gate_proj" && Up.Name() == "up_proj" && Down.Name() == "down_proj"
    ensures k.Name() == "model" + "." + "layers" + "." + Decimal(k.layer) + "." + "mlp" + "." + "experts" + "." + Decimal(k.expert)
                        + "." + k.proj.Name() + "." + "weight"
    ensures k.Pattern() == "model" + "." + "layers" + "." + Decimal(k.layer) + "." + "mlp" + "." + "experts" + "." + Decimal(k.expert)
                           + "." + k.proj.Name() + "." + ""
  {
    JoinEight(k.Parts() + ["weight"]);
    JoinEight(k.Parts() + [""]);
  }

  lemma JoinEight(p: seq<string>)
    requires |p| == 8
    ensures Join(p) == p[0] + "." + p[1] + "." + p[2] + "." + p[3] + "." + p[4] + "." + p[5] + "." + p[6] + "." + p[7]
  {
    JoinFour(p[..4]);
    assert p[..7][..6] == p[..6] && p[..6][..5] == p[..5] && p[..5][..4] == p[..4];
    assert Join(p[..5]) == Join(p[..4]) + "." + p[4];
    assert Join(p[..6]) == Join(p[..5]) + "." + p[5];
    assert Join(p[..7]) == Join(p[..6]) + "." + p[6];
  }

  lemma JoinFour(p: seq<string>)
    requires |p| == 4
    ensures Join(p) == p[0] + "." + p[1] + "." + p[2] + "." + p[3]
  {
    assert p[..3][..2] == p[..2] && p[..2][..1] == p[..1];
    assert Join(p[..1]) == p[0];
    assert Join(p[..2]) == Join(p[..1]) + "." + p[1];
    assert Join(p[..3]) == Join(p[..2]) + "." + p[2];
  }

  /** The pattern of `k` occurs in its own name. */
  lemma OwnPattern(k: Key)
    ensures Occurs(k.Name(), k.Pattern())
  {
    var p := k.Parts();
    assert (p + [""])[..7] == p && (p + ["weight"])[..7] == p;
    assert k.Pattern() == Join(p) + "." + "";
    assert k.Name() == Join(p) + "." + "weight";
    assert OccursAt(k.Name(), k.Pattern(), 0);
  }

  /** The pattern of an expert weight occurs in the name of an expert weight exactly if it is
      its own, although one printed number may be a prefix of another. */
  lemma PatternMatches(k: Key, l: Key)
    ensures Occurs(k.Name(), l.Pattern()) <==> k == l
  {
    OwnPattern(k);
    if Occurs(k.Name(), l.Pattern()) {
      var i: nat :| i <= |k.Name()| && OccursAt(k.Name(), l.Pattern(), i);
      PartsNoDot(l, "");
      assert forall j :: 0 <= j < 7 ==> (l.Parts() + [""])[j] == l.Parts()[j];
      OccurrenceParts(k.Name(), l.Parts(), i);
      var j: nat :| PartsAt(Split(k.Name()), l.Parts(), j);
      SplitName(k);
      SameParts(k, l, j);
    }
  }

  lemma SameParts(k: Key, l: Key, j: nat)
    requires PartsAt(k.Parts() + ["weight"], l.Parts(), j)
    ensures k == l
  {
    var p, q := k.Parts() + ["weight"], l.Parts();
    assert j == 0;
    assert p[2] == q[2] && p[5] == q[5] && p[6] == q[6];
    DecimalInjective(k.layer, l.layer);
    DecimalInjective(k.expert, l.expert);
    SameProj(k.proj, l.proj);
  }

  lemma SameProj(a: Proj, b: Proj)
    requires a.Name() == b.Name()
    ensures a == b
  {
    assert a.Name()[0] == b.Name()[0];
  }

  // ---------------------------------------------------------------------------
  // The weight loaders
  // ---------------------------------------------------------------------------

  type Weight = int

  /** The fused parameters: for every layer, expert and half of w13 (gate first), and for every
      layer and expert of w2, the weight stored there. */
  datatype Params = Params(w13: map<(nat, nat, bool), Weight>, w2: map<(nat, nat), Weight>) {
    function Slot(k: Key): Option<Weight> {
      match k.proj
      case Gate => if (k.layer, k.expert, true) in w13 then Some(w13[(k.layer, k.expert, true)]) else None
      case Up => if (k.layer, k.expert, false) in w13 then Some(w13[(k.layer, k.expert, false)]) else None
      case Down => if (k.layer, k.expert) in w2 then Some(w2[(k.layer, k.expert)]) else None
    }

    function Store(k: Key, w: Weight): Params {
      match k.proj
      case Gate => Params(w13[(k.layer, k.expert, true) := w], w2)
      case Up => Params(w13[(k.layer, k.expert, false) := w], w2)
      case Down => Params(w13, w2[(k.layer, k.expert) := w])
    }
  }

  /** Storing changes one slot only. */
  lemma StoreIs(p: Params, k: Key, w: Weight, l: Key)
    ensures p.Store(k, w).Slot(l) == if l == k then Some(w) else p.Slot(l)
  {
  }

  /** A gate weight goes to the first half of w13, an up weight to the second, a down weight to w2. */
  lemma StoredWhere(p: Params, l: nat, e: nat, w: Weight)
    ensures (l, e, true) in p.Store(Key(l, e, Gate), w).w13 && p.Store(Key(l, e, Gate), w).w13[(l, e, true)] == w
    ensures (l, e, false) in p.Store(Key(l, e, Up), w).w13 && p.Store(Key(l, e, Up), w).w13[(l, e, false)] == w
    ensures (l, e) in p.Store(Key(l, e, Down), w).w2 && p.Store(Key(l, e, Down), w).w2[(l, e)] == w
  {
  }

  /** The part after the first "experts" that has a successor. */
  function ExpertPart(parts: seq<string>, i: nat): Option<string>
    requires i <= |parts|
    decreases |parts| - i
  {
    if i == |parts| then None
    else if parts[i] == "experts" && i + 1 < |parts| then Some(parts[i + 1])
    else ExpertPart(parts, i + 1)
  }

  /** Where a loader puts a weight: nowhere, into a slot, or an error: the name does not parse, or
      the parameter has no such expert. */
  datatype Route = Ignored | To(key: Key) | BadName | NoSuchExpert

  /** Which projection a loader of w13 or w2 takes the name for. */
  function ProjOf(m: Key, name: string): Option<Proj> {
    if m.proj.Down? then (if Occurs(name, "down_proj") then Some(Down) else None)
    else if Occurs(name, "gate_proj") then Some(Gate)
    else if Occurs(name, "up_proj") then Some(Up)
    else None
  }

  /** The loaders of w13 and w2 for layer `m.layer`: the expert comes from the name. */
  function RouteBy(m: Key, name: string, experts: nat): Route {
    var part := ExpertPart(Split(name), 0);
    if part.None? || Parse(part.value).None? then BadName
    else
      var e := Parse(part.value).value;
      match ProjOf(m, name)
      case None => Ignored
      case Some(proj) => if e < experts then To(Key(m.layer, e, proj)) else NoSuchExpert
  }

  /** Part `i` is the first "experts", and something follows it. */
  predicate FirstExperts(parts: seq<string>, i: nat) {
    i + 1 < |parts| && parts[i] == "experts" && forall j :: 0 <= j < i ==> parts[j] != "experts"
  }

  lemma {:induction false} ExpertPartIs(parts: seq<string>, k: nat, i: nat)
    requires k <= i && FirstExperts(parts, i)
    ensures ExpertPart(parts, k) == Some(parts[i + 1])
    decreases i - k
  {
    if k < i {
      ExpertPartIs(parts, k + 1, i);
    }
  }

  lemma {:induction false} ExpertPartAt(parts: seq<string>, k: nat) returns (i: nat)
    requires k <= |parts| && (forall j :: 0 <= j < k ==> parts[j] != "experts") && ExpertPart(parts, k).Some?
    ensures FirstExperts(parts, i)
    decreases |parts| - k
  {
    if parts[k] == "experts" {
      i := k;
    } else {
      i := ExpertPartAt(parts, k + 1);
    }
  }

  /** Number `e` follows the first "experts". */
  predicate NumberAt(parts: seq<string>, i: nat, e: nat) { FirstExperts(parts, i) && Parse(parts[i + 1]) == Some(e) }

  ghost predicate HasNumber(parts: seq<string>) { exists i: nat, e: nat :: NumberAt(parts, i, e) }

  /** A loader fails exactly if no number follows the first "experts" of the name. */
  lemma BadNameIff(m: Key, name: string, experts: nat)
    ensures RouteBy(m, name, experts).BadName? <==> !HasNumber(Split(name))
  {
    var parts := Split(name);
    if i: nat, e: nat :| NumberAt(parts, i, e) {
      ExpertPartIs(parts, 0, i);
    }
    if ExpertPart(parts, 0).Some? && Parse(ExpertPart(parts, 0).value).Some? {
      var i := ExpertPartAt(parts, 0);
      ExpertPartIs(parts, 0, i);
      assert NumberAt(parts, i, Parse(parts[i + 1]).value);
    }
  }

  /** Otherwise that number is the expert, and the name decides the slot: in the loader of w13 "gate_proj"
      before "up_proj", in that of w2 "down_proj"; other names are ignored, and an expert that is not
      there is an error. */
  lemma RouteByIs(m: Key, name: string, experts: nat, i: nat, e: nat)
    requires NumberAt(Split(name), i, e)
    ensures var r := RouteBy(m, name, experts); var to := (p: Proj) => if e < experts then To(Key(m.layer, e, p)) else NoSuchExpert;
            if m.proj.Down? then r == (if Occurs(name, "down_proj") then to(Down) else Ignored)
            else if Occurs(name, "gate_proj") then r == to(Gate)
            else if Occurs(name, "up_proj") then r == to(Up)
            else r == Ignored
  {
    ExpertPartIs(Split(name), 0, i);
  }

  method FindExpertPart(parts: seq<string>) returns (r: Option<string>)
    ensures r == ExpertPart(parts, 0)
  {
    for i := 0 to |parts|
      invariant ExpertPart(parts, i) == ExpertPart(parts, 0)
    {
      if parts[i] == "experts" && i + 1 < |parts| {
        return Some(parts[i + 1]);
      }
    }
    r := None;
  }

  /** The expert number is parsed back from the printed name. */
  lemma ExpertOfName(k: Key)
    ensures ExpertPart(Split(k.Name()), 0) == Some(Decimal(k.expert)) && Parse(Decimal(k.expert)) == Some(k.expert)
  {
    SplitName(k);
    ParseDecimal(k.expert);
    var p := k.Parts() + ["weight"];
    NumberIsNotExperts(k.layer);
    assert p[0] == "model" && p[1] == "layers" && p[2] == Decimal(k.layer) && p[3] == "mlp" && p[4] == "experts";
    assert p[0][0] == 'm' && p[1][0] == 'l' && p[3][0] == 'm';
    assert ExpertPart(p, 4) == Some(p[5]);
    assert ExpertPart(p, 3) == Some(p[5]);
    assert ExpertPart(p, 2) == Some(p[5]);
    assert ExpertPart(p, 1) == Some(p[5]);
  }

  lemma NumberIsNotExperts(n: nat)
    ensures Decimal(n) != "experts"
  {
    ParseDecimal(n);
    assert Decimal(n)[0] in Decimal(n);
  }

  /** Every name contains the name of its projection. */
  lemma ContainsProj(k: Key)
    ensures Occurs(k.Name(), k.proj.Name())
  {
    var p := k.Parts();
    assert (p + ["weight"])[..7] == p;
    var head := Join(p[..6]) + ".";
    assert Join(p) == head + p[6];
    assert k.Name() == Join(p) + "." + "weight";
    assert OccursAt(k.Name(), k.proj.Name(), |head|);
  }

  /** A text without dots that occurs in a name occurs in one of its parts. */
  lemma OccursInPart(s: string, p: string, i: nat)
    requires NoDot(p) && OccursAt(s, p, i)
    ensures exists k :: 0 <= k < |Split(s)| && Occurs(Split(s)[k], p)
  {
    var x, y := s[..i], s[i + |p|..];
    assert s == x + (p + y);
    SplitPlain(p);
    SplitSum(p, y);
    SplitSum(x, p + y);
    var a, b := Split(x), Split(y);
    var k := |a| - 1;
    assert Split(s)[k] == a[k] + (p + b[0]);
    assert OccursAt(Split(s)[k], p, |a[k]|);
  }

  /** The name of an up projection does not contain "gate_proj". */
  lemma UpIsNotGate(k: Key)
    requires k.proj.Up?
    ensures !Occurs(k.Name(), "gate_proj")
  {
    if Occurs(k.Name(), "gate_proj") {
      var i: nat :| i <= |k.Name()| && OccursAt(k.Name(), "gate_proj", i);
      OccursInPart(k.Name(), "gate_proj", i);
      SplitName(k);
      var j :| 0 <= j < 8 && Occurs((k.Parts() + ["weight"])[j], "gate_proj");
      NotInNumber(k.layer);
      NotInNumber(k.expert);
    }
  }

  lemma NotInNumber(n: nat)
    ensures !Occurs(Decimal(n), "gate_proj")
  {
    ParseDecimal(n);
    if Occurs(Decimal(n), "gate_proj") {
      var i: nat :| i <= |Decimal(n)| && OccursAt(Decimal(n), "gate_proj", i);
      OccursElement(Decimal(n), "gate_proj", i, 0);
    }
  }

  /** A weight under its own name, through its own mapping, goes to its own slot. */
  lemma OwnRoute(k: Key, experts: nat)
    requires k.expert < experts
    ensures RouteBy(k, k.Name(), experts) == To(k)
  {
    ExpertOfName(k);
    ContainsProj(k);
    if k.proj.Up? {
      UpIsNotGate(k);
    }
  }

  // ---------------------------------------------------------------------------
  // Loading a checkpoint
  // ---------------------------------------------------------------------------

  predicate InRange(k: Key, layers: nat, experts: nat) { k.layer < layers && k.expert < experts }

  /** The mapping table: every expert weight of every layer, in order. */
  function LayerTable(l: nat, experts: nat): seq<Key> {
    if experts == 0 then []
    else LayerTable(l, experts - 1) + [Key(l, experts - 1, Gate), Key(l, experts - 1, Up), Key(l, experts - 1, Down)]
  }

  function Table(layers: nat, experts: nat): seq<Key> {
    if layers == 0 then [] else Table(layers - 1, experts) + LayerTable(layers - 1, experts)
  }

  lemma {:induction false} InLayerTable(l: nat, experts: nat, k: Key)
    ensures k in LayerTable(l, experts) <==> k.layer == l && k.expert < experts
  {
    if experts > 0 {
      InLayerTable(l, experts - 1, k);
      ThreeKeys(LayerTable(l, experts - 1), k, l, experts - 1);
    }
  }

  lemma InSum(a: seq<Key>, b: seq<Key>, k: Key)
    ensures k in a + b <==> k in a || k in b
  {
  }

  /** Each expert weight is in the table. */
  lemma {:induction false} InTable(layers: nat, experts: nat, k: Key)
    ensures k in Table(layers, experts) <==> InRange(k, layers, experts)
  {
    if layers > 0 {
      InTable(layers - 1, experts, k);
      assert k in LayerTable(layers - 1, experts) <==> k.layer == layers - 1 && k.expert < experts by { InLayerTable(layers - 1, experts, k); }
      InSum(Table(layers - 1, experts), LayerTable(layers - 1, experts), k);
    }
  }

  lemma ThreeKeys(ms: seq<Key>, k: Key, l: nat, e: nat)
    ensures k in ms + [Key(l, e, Gate), Key(l, e, Up), Key(l, e, Down)] <==> k in ms || (k.layer == l && k.expert == e)
  {
    var three := [Key(l, e, Gate), Key(l, e, Up), Key(l, e, Down)];
    if k.layer == l && k.expert == e {
      assert k == three[if k.proj.Gate? then 0 else if k.proj.Up? then 1 else 2];
    }
  }

  /** The order of the table: layer by layer, expert by expert, gate, up, down. */
  lemma {:induction false} LayerTableAt(l: nat, experts: nat, e: nat)
    requires e < experts
    ensures |LayerTable(l, experts)| == 3 * experts
    ensures LayerTable(l, experts)[3 * e] == Key(l, e, Gate) && LayerTable(l, experts)[3 * e + 1] == Key(l, e, Up) && LayerTable(l, experts)[3 * e + 2] == Key(l, e, Down)
  {
    if experts > 1 {
      LayerTableAt(l, experts - 1, if e < experts - 1 then e else 0);
    }
  }

  lemma {:induction false} TableAt(layers: nat, experts: nat, l: nat)
    requires l < layers
    ensures Table(l, experts) + LayerTable(l, experts) <= Table(layers, experts)
  {
    if l < layers - 1 {
      TableAt(layers - 1, experts, l);
    }
  }

  method GetExpertMapping(layers: nat, experts: nat) returns (ms: seq<Key>)
    ensures ms == Table(layers, experts)
  {
    ms := [];
    for l := 0 to layers
      invariant ms == Table(l, experts)
    {
      ghost var before := ms;
      for e := 0 to experts
        invariant ms == before + LayerTable(l, e)
      {
        ms := ms + [Key(l, e, Gate), Key(l, e, Up), Key(l, e, Down)];
      }
    }
  }

  datatype Entry = Entry(name: string, weight: Weight)

  /** The pattern of the mapping occurs in the name, and its parameter exists. */
  predicate Applies(m: Key, name: string, present: set<nat>) { Occurs(name, m.Pattern()) && m.layer in present }

  /** The first mapping from position `i` on that applies. */
  function FirstMatch(name: string, ms: seq<Key>, present: set<nat>, i: nat): Option<Key>
    requires i <= |ms|
    decreases |ms| - i
  {
    if i == |ms| then None
    else if Applies(ms[i], name, present) then Some(ms[i])
    else FirstMatch(name, ms, present, i + 1)
  }

  method FindMapping(name: string, ms: seq<Key>, present: set<nat>) returns (r: Option<Key>)
    ensures r == FirstMatch(name, ms, present, 0)
  {
    for i := 0 to |ms|
      invariant FirstMatch(name, ms, present, i) == FirstMatch(name, ms, present, 0)
    {
      if Applies(ms[i], name, present) {
        return Some(ms[i]);
      }
    }
    r := None;
  }

  lemma {:induction false} MatchApplies(name: string, ms: seq<Key>, present: set<nat>, i: nat) returns (j: nat)
    requires i <= |ms| && FirstMatch(name, ms, present, i).Some?
    ensures i <= j < |ms| && FirstMatch(name, ms, present, i).value == ms[j] && Applies(ms[j], name, present)
    ensures forall k :: i <= k < j ==> !Applies(ms[k], name, present)
    decreases |ms| - i
  {
    if Applies(ms[i], name, present) {
      j := i;
    } else {
      j := MatchApplies(name, ms, present, i + 1);
    }
  }

  /** The mapping at `j` applies, and none before it. */
  predicate FirstApplies(name: string, ms: seq<Key>, present: set<nat>, j: nat) {
    j < |ms| && Applies(ms[j], name, present) && forall k :: 0 <= k < j ==> !Applies(ms[k], name, present)
  }

  lemma {:induction false} NoMatchNoneApplies(name: string, ms: seq<Key>, present: set<nat>, i: nat, j: nat)
    requires i <= j < |ms| && FirstMatch(name, ms, present, i).None?
    ensures !Applies(ms[j], name, present)
    decreases |ms| - i
  {
    if i < j {
      NoMatchNoneApplies(name, ms, present, i + 1, j);
    }
  }

  lemma FirstMatchIs(name: string, ms: seq<Key>, present: set<nat>)
    ensures var r := FirstMatch(name, ms, present, 0);
            && (r.Some? ==> exists j: nat :: FirstApplies(name, ms, present, j) && r.value == ms[j])
            && (r.None? ==> forall j :: 0 <= j < |ms| ==> !Applies(ms[j], name, present))
  {
    if FirstMatch(name, ms, present, 0).Some? {
      var j := MatchApplies(name, ms, present, 0);
      assert FirstApplies(name, ms, present, j);
    } else {
      forall j | 0 <= j < |ms| ensures !Applies(ms[j], name, present) {
        NoMatchNoneApplies(name, ms, present, 0, j);
      }
    }
  }

  /** Where an entry of the checkpoint goes, whatever its name. */
  function RouteOf(name: string, layers: nat, experts: nat, present: set<nat>): Route {
    match FirstMatch(name, Table(layers, experts), present, 0)
    case None => Ignored
    case Some(m) => RouteBy(m, name, experts)
  }

  predicate Loadable(r: Route) { r.Ignored? || r.To? }

  /** The routes of all entries. */
  function RoutesOf(es: seq<Entry>, layers: nat, experts: nat, present: set<nat>): (rs: seq<Route>)
    ensures |rs| == |es| && forall i :: 0 <= i < |es| ==> rs[i] == RouteOf(es[i].name, layers, experts, present)
  {
    seq(|es|, i requires 0 <= i < |es| => RouteOf(es[i].name, layers, experts, present))
  }

  /** The weight of the last of the first `n` entries that goes to slot `k`. */
  function LastRouted(es: seq<Entry>, rs: seq<Route>, n: nat, k: Key): Option<Weight>
    requires n <= |es| == |rs|
  {
    if n == 0 then None else if rs[n - 1] == To(k) then Some(es[n - 1].weight) else LastRouted(es, rs, n - 1, k)
  }

  /** It is the last: it goes there, and no later one does. */
  lemma {:induction false} LastRoutedIs(es: seq<Entry>, rs: seq<Route>, n: nat, k: Key, i: nat)
    requires i < n <= |es| == |rs| && rs[i] == To(k) && forall j :: i < j < n ==> rs[j] != To(k)
    ensures LastRouted(es, rs, n, k) == Some(es[i].weight)
  {
    if i < n - 1 {
      LastRoutedIs(es, rs, n - 1, k, i);
    }
  }

  lemma {:induction false} NoneRouted(es: seq<Entry>, rs: seq<Route>, n: nat, k: Key)
    requires n <= |es| == |rs| && forall j :: 0 <= j < n ==> rs[j] != To(k)
    ensures LastRouted(es, rs, n, k) == None
  {
    if n > 0 {
      NoneRouted(es, rs, n - 1, k);
    }
  }

  ghost predicate Filled(p: Params, es: seq<Entry>, rs: seq<Route>, n: nat)
    requires n <= |es| == |rs|
  {
    forall k {:trigger p.Slot(k)} :: p.Slot(k) == LastRouted(es, rs, n, k)
  }

  lemma EntryFills(p: Params, es: seq<Entry>, rs: seq<Route>, n: nat)
    requires n < |es| == |rs| && Filled(p, es, rs, n) && Loadable(rs[n])
    ensures Filled(if rs[n].To? then p.Store(rs[n].key, es[n].weight) else p, es, rs, n + 1)
  {
    var q := if rs[n].To? then p.Store(rs[n].key, es[n].weight) else p;
    forall k ensures q.Slot(k) == LastRouted(es, rs, n + 1, k) {
      if rs[n].To? {
        StoreIs(p, rs[n].key, es[n].weight, k);
      }
    }
  }

  datatype Loading = Loaded(p: Params) | ValueError | IndexError

  /** The first entry that cannot be loaded decides the error. */
  predicate FailsAs(r: Loading, rs: seq<Route>) {
    exists n :: 0 <= n < |rs| && (forall i :: 0 <= i < n ==> Loadable(rs[i])) &&
                ((r.ValueError? && rs[n].BadName?) || (r.IndexError? && rs[n].NoSuchExpert?))
  }

  /** The loop over the checkpoint, for any names whatsoever: it fails exactly if some entry that
      matches a pattern does not parse or names an expert that is not there, with the error of the
      first such entry; otherwise every slot holds the last entry that goes to it. */
  method LoadWeights(es: seq<Entry>, layers: nat, experts: nat, present: set<nat>) returns (r: Loading)
    ensures r.Loaded? <==> forall i :: 0 <= i < |es| ==> Loadable(RoutesOf(es, layers, experts, present)[i])
    ensures r.Loaded? ==> Filled(r.p, es, RoutesOf(es, layers, experts, present), |es|)
    ensures !r.Loaded? ==> FailsAs(r, RoutesOf(es, layers, experts, present))
  {
    ghost var rs := RoutesOf(es, layers, experts, present);
    var ms := GetExpertMapping(layers, experts);
    var p := Params(map[], map[]);
    for n := 0 to |es|
      invariant Filled(p, es, rs, n)
      invariant forall i :: 0 <= i < n ==> Loadable(rs[i])
    {
      var route := RouteEntry(es[n].name, ms, layers, experts, present);
      if route.BadName? {
        return ValueError;
      }
      if route.NoSuchExpert? {
        return IndexError;
      }
      EntryFills(p, es, rs, n);
      if route.To? {
        p := p.Store(route.key, es[n].weight);
      }
    }
    r := Loaded(p);
  }

  /** The inner loop over the table, and the loader it calls. */
  method RouteEntry(name: string, ms: seq<Key>, ghost layers: nat, experts: nat, present: set<nat>) returns (route: Route)
    requires ms == Table(layers, experts)
    ensures route == RouteOf(name, layers, experts, present)
  {
    var found := FindMapping(name, ms, present);
    if found.Some? {
      route := RouteBy(found.value, name, experts);
    } else {
      route := Ignored;
    }
  }

  /** The name of an expert weight is routed to its own slot, or nowhere if its layer has no
      experts. */
  lemma NameRoute(k: Key, layers: nat, experts: nat, present: set<nat>)
    requires InRange(k, layers, experts)
    ensures RouteOf(k.Name(), layers, experts, present) == if k.layer in present then To(k) else Ignored
  {
    var ms := Table(layers, experts);
    FirstMatchIs(k.Name(), ms, present);
    InTable(layers, experts, k);
    var f := FirstMatch(k.Name(), ms, present, 0);
    OwnPattern(k);
    if f.Some? {
      PatternMatches(k, f.value);
      OwnRoute(k, experts);
    }
  }

  /** The entry is an expert weight of the model, or its name contains no expert pattern. */
  ghost predicate Known(name: string, layers: nat, experts: nat) {
    (exists k :: InRange(k, layers, experts) && name == k.Name()) ||
    (forall k :: InRange(k, layers, experts) ==> !Occurs(name, k.Pattern()))
  }

  lemma KnownRoute(name: string, layers: nat, experts: nat, present: set<nat>, k: Key)
    requires Known(name, layers, experts) && InRange(k, layers, experts) && k.layer in present
    ensures Loadable(RouteOf(name, layers, experts, present))
    ensures RouteOf(name, layers, experts, present) == To(k) <==> name == k.Name()
  {
    NameRoute(k, layers, experts, present);
    if l :| InRange(l, layers, experts) && name == l.Name() {
      NameRoute(l, layers, experts, present);
    } else {
      OwnPattern(k);
      PlainRoute(name, layers, experts, present);
    }
  }

  lemma PlainRoute(name: string, layers: nat, experts: nat, present: set<nat>)
    requires forall k :: InRange(k, layers, experts) ==> !Occurs(name, k.Pattern())
    ensures RouteOf(name, layers, experts, present) == Ignored
  {
    var ms := Table(layers, experts);
    FirstMatchIs(name, ms, present);
    var f := FirstMatch(name, ms, present, 0);
    if f.Some? {
      InTable(layers, experts, f.value);
    }
  }

  /** The weight of the last of the first `n` entries with this name. */
  function LastNamed(es: seq<Entry>, n: nat, name: string): Option<Weight>
    requires n <= |es|
  {
    if n == 0 then None else if es[n - 1].name == name then Some(es[n - 1].weight) else LastNamed(es, n - 1, name)
  }

  /** The entries of a checkpoint with known names. */
  ghost predicate AllKnown(es: seq<Entry>, layers: nat, experts: nat) {
    forall i :: 0 <= i < |es| ==> Known(es[i].name, layers, experts)
  }

  /** Such a checkpoint loads without an error. */
  lemma KnownIsLoadable(es: seq<Entry>, layers: nat, experts: nat, present: set<nat>)
    requires AllKnown(es, layers, experts)
    ensures forall i :: 0 <= i < |es| ==> Loadable(RouteOf(es[i].name, layers, experts, present))
  {
    forall i | 0 <= i < |es| ensures Loadable(RouteOf(es[i].name, layers, experts, present)) {
      assert Known(es[i].name, layers, experts);
      if l :| InRange(l, layers, experts) && es[i].name == l.Name() {
        NameRoute(l, layers, experts, present);
      } else {
        PlainRoute(es[i].name, layers, experts, present);
      }
    }
  }

  /** If exactly the entries with a name go to a slot, the slot holds the last of them. */
  lemma {:induction false} RoutedIsNamed(es: seq<Entry>, rs: seq<Route>, n: nat, k: Key, name: string)
    requires n <= |es| == |rs| && forall i :: 0 <= i < |es| ==> (rs[i] == To(k) <==> es[i].name == name)
    ensures LastRouted(es, rs, n, k) == LastNamed(es, n, name)
  {
    if n > 0 {
      RoutedIsNamed(es, rs, n - 1, k, name);
    }
  }

  /** Main theorem: for any numbers of layers and experts and any order of the entries of a
      checkpoint, every gate, up and down weight of a layer with experts goes to its own slot:
      the slot holds the last entry of its name. */
  lemma CheckpointFills(es: seq<Entry>, k: Key, layers: nat, experts: nat, present: set<nat>)
    requires AllKnown(es, layers, experts) && InRange(k, layers, experts) && k.layer in present
    ensures LastRouted(es, RoutesOf(es, layers, experts, present), |es|, k) == LastNamed(es, |es|, k.Name())
  {
    var rs := RoutesOf(es, layers, experts, present);
    forall i | 0 <= i < |es| ensures rs[i] == To(k) <==> es[i].name == k.Name() {
      KnownRoute(es[i].name, layers, experts, present, k);
    }
    RoutedIsNamed(es, rs, |es|, k, k.Name());
  }
}
