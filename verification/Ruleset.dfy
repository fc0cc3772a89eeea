// The deny-rule preview: filter the buckets, sort them in place, number them.

module Ruleset {
  import opened Text
  import opened Tables
  import opened Sorting
  import opened Keys
  import opened Risk

  datatype PortUsage = PortUsage(bucket: Bucket, usage: Usage)

  datatype Candidate = Candidate(u: PortUsage, r: RiskResult)

  datatype Options = Options(minSampleCount: int, includeLowRisk: bool, precedenceStart: int, precedenceStep: int)

  datatype Rule = Rule(
    name: string, ruleType: string, ruleAction: string, protocol: string,
    srcType: string, srcAddr: string, srcMask: string, dstType: string, dstAddr: string, dstMask: string,
    dstPort: string, precedence: int, riskBucket: RiskBucket, requiresManualGroupSetup: bool)

  function WithDefaults(o: Options): (r: Options)
    ensures r.minSampleCount > 0 && r.precedenceStart > 0 && r.precedenceStep > 0
    ensures if o.minSampleCount > 0 then r.minSampleCount == o.minSampleCount else r.minSampleCount == 3
    ensures if o.precedenceStart > 0 then r.precedenceStart == o.precedenceStart else r.precedenceStart == 100
    ensures if o.precedenceStep > 0 then r.precedenceStep == o.precedenceStep else r.precedenceStep == 10
    ensures r.includeLowRisk == o.includeLowRisk
  {
    o.(minSampleCount := if o.minSampleCount <= 0 then 3 else o.minSampleCount,
       precedenceStart := if o.precedenceStart <= 0 then 100 else o.precedenceStart,
       precedenceStep := if o.precedenceStep <= 0 then 10 else o.precedenceStep)
  }

  /** Which buckets get a rule. */
  predicate Wanted(u: PortUsage, approved: set<string>, score: PortUsage -> RiskResult, o: Options) {
    && ApprovedKey(u.bucket.protocol, u.bucket.dstPort, u.bucket.application) !in approved
    && u.usage.sampleCount >= o.minSampleCount
    && (score(u).bucket != Low || o.includeLowRisk)
  }

  function Candidates(usage: seq<PortUsage>, approved: set<string>, score: PortUsage -> RiskResult, o: Options): seq<Candidate> {
    if usage == [] then []
    else
      var rest := Candidates(usage[..|usage| - 1], approved, score, o);
      var u := usage[|usage| - 1];
      if Wanted(u, approved, score, o) then rest + [Candidate(u, score(u))] else rest
  }

  /** Higher risk first, then most recently seen. */
  function Urgency(c: Candidate): Key {
    Key(c.r.score, c.u.usage.lastSeen)
  }

  function RuleName(b: Bucket): string {
    if b.application != ""
    then "deny-" + b.application + "-" + b.protocol + "-" + Itoa(b.dstPort)
    else "deny-" + b.protocol + "-" + Itoa(b.dstPort)
  }

  function RuleFor(c: Candidate, precedence: int): Rule {
    var b := c.u.bucket;
    Rule(RuleName(b), "ip", "deny", b.protocol, "all", "", "", "all", "any", "",
         if b.dstPort == 0 then "" else Itoa(b.dstPort), precedence, c.r.bucket, b.application != "")
  }

  function Rules(cs: seq<Candidate>, o: Options): seq<Rule> {
    RulesFrom(cs, o.precedenceStart, o.precedenceStep)
  }

  function RulesFrom(cs: seq<Candidate>, precedence: int, step: int): seq<Rule> {
    if cs == [] then [] else [RuleFor(cs[0], precedence)] + RulesFrom(cs[1..], precedence + step, step)
  }

  function Nth(precedence: int, step: int, i: nat): int
    decreases i
  {
    if i == 0 then precedence else Nth(precedence + step, step, i - 1)
  }

  lemma {:induction false} NthIs(precedence: int, step: int, i: nat)
    ensures Nth(precedence, step, i) == precedence + i * step
    decreases i
  {
    if i > 0 {
      NthIs(precedence + step, step, i - 1);
      assert step + (i - 1) * step == i * step;
    }
  }

  lemma {:induction false} RuleNth(cs: seq<Candidate>, precedence: int, step: int, i: nat)
    requires i < |cs|
    ensures |RulesFrom(cs, precedence, step)| == |cs|
    ensures RulesFrom(cs, precedence, step)[i] == RuleFor(cs[i], Nth(precedence, step, i))
  {
    RulesLength(cs, precedence, step);
    if i > 0 {
      var rest := RulesFrom(cs[1..], precedence + step, step);
      assert RulesFrom(cs, precedence, step) == [RuleFor(cs[0], precedence)] + rest;
      RuleNth(cs[1..], precedence + step, step, i - 1);
    }
  }

  /** The rules follow the sorted buckets one by one, at start, start + step, start + 2 * step and so on. */
  lemma RuleAt(cs: seq<Candidate>, precedence: int, step: int, i: nat)
    requires i < |cs|
    ensures |RulesFrom(cs, precedence, step)| == |cs|
    ensures RulesFrom(cs, precedence, step)[i] == RuleFor(cs[i], precedence + i * step)
  {
    RuleNth(cs, precedence, step, i);
    NthIs(precedence, step, i);
  }

  lemma {:induction false} RulesLength(cs: seq<Candidate>, precedence: int, step: int)
    ensures |RulesFrom(cs, precedence, step)| == |cs|
  {
    if cs != [] { RulesLength(cs[1..], precedence + step, step); }
  }

  /** What the device drops under a rule: its protocol, on its port or on any when it names none. */
  predicate Blocks(r: Rule, protocol: string, port: int) {
    r.ruleAction == "deny" && r.protocol == protocol && (r.dstPort == "" || r.dstPort == Itoa(port))
  }

  /** A rule drops its own bucket's traffic, and another bucket's exactly when that has the same protocol and the same port,
      or the rule's bucket has port 0; the application does not matter. */
  lemma BlocksIff(c: Candidate, precedence: int, b: Bucket)
    ensures Blocks(RuleFor(c, precedence), c.u.bucket.protocol, c.u.bucket.dstPort)
    ensures Blocks(RuleFor(c, precedence), b.protocol, b.dstPort)
      <==> b.protocol == c.u.bucket.protocol && (c.u.bucket.dstPort == 0 || c.u.bucket.dstPort == b.dstPort)
  {
    if Itoa(c.u.bucket.dstPort) == Itoa(b.dstPort) {
      ItoaInjective(c.u.bucket.dstPort, b.dstPort);
    }
  }

  method Generate(usage: seq<PortUsage>, approved: set<string>, score: PortUsage -> RiskResult, opts: Options)
    returns (rules: seq<Rule>)
    ensures var o := WithDefaults(opts);
      rules == Rules(StableSort(Candidates(usage, approved, score, o), Urgency), o)
  {
    var o := WithDefaults(opts);
    var candidates := Collect(usage, approved, score, o);
    var a := new Candidate[|candidates|](i requires 0 <= i < |candidates| => candidates[i]);
    assert a[..] == candidates;
    InsertionSort(a, Urgency);
    rules := Number(a[..], o);
  }

  method Collect(usage: seq<PortUsage>, approved: set<string>, score: PortUsage -> RiskResult, o: Options)
    returns (candidates: seq<Candidate>)
    ensures candidates == Candidates(usage, approved, score, o)
  {
    candidates := [];
    for i := 0 to |usage|
      invariant candidates == Candidates(usage[..i], approved, score, o)
    {
      var u := usage[i];
      assert usage[..i + 1][..i] == usage[..i];
      var key := ApprovedKey(u.bucket.protocol, u.bucket.dstPort, u.bucket.application);
      if key in approved {
        continue;
      }
      if u.usage.sampleCount < o.minSampleCount {
        continue;
      }
      var rr := score(u);
      if rr.bucket == Low && !o.includeLowRisk {
        continue;
      }
      candidates := candidates + [Candidate(u, rr)];
    }
    assert usage[..|usage|] == usage;
  }

  lemma NumberNext(rules: seq<Rule>, rest: seq<Candidate>, precedence: int, step: int)
    requires rest != []
    ensures rules + RulesFrom(rest, precedence, step)
         == rules + [RuleFor(rest[0], precedence)] + RulesFrom(rest[1..], precedence + step, step)
  {
  }

  method Number(sorted: seq<Candidate>, o: Options) returns (rules: seq<Rule>)
    ensures rules == Rules(sorted, o)
  {
    rules := [];
    var precedence := o.precedenceStart;
    for i := 0 to |sorted|
      invariant rules + RulesFrom(sorted[i..], precedence, o.precedenceStep) == Rules(sorted, o)
    {
      NumberNext(rules, sorted[i..], precedence, o.precedenceStep);
      assert sorted[i..][1..] == sorted[i + 1..];
      rules := rules + [RuleFor(sorted[i], precedence)];
      precedence := precedence + o.precedenceStep;
    }
  }

  // ----- What the preview is ---------------------------------------------------------

  lemma {:induction false} CandidatesAreWanted(usage: seq<PortUsage>, approved: set<string>, score: PortUsage -> RiskResult, o: Options)
    ensures forall c :: c in Candidates(usage, approved, score, o)
              <==> c.u in usage && Wanted(c.u, approved, score, o) && c.r == score(c.u)
  {
    if usage != [] {
      var init, u := usage[..|usage| - 1], usage[|usage| - 1];
      assert usage == init + [u];
      CandidatesAreWanted(init, approved, score, o);
    }
  }

  /** The buckets behind the rules of a preview are the wanted ones. */
  lemma SortedAreWanted(usage: seq<PortUsage>, approved: set<string>, score: PortUsage -> RiskResult, o: Options)
    ensures var sorted := StableSort(Candidates(usage, approved, score, o), Urgency);
      && (forall i :: 0 <= i < |sorted| ==> sorted[i].u in usage)
      && (forall i :: 0 <= i < |sorted| ==> Wanted(sorted[i].u, approved, score, o))
      && (forall u :: u in usage && Wanted(u, approved, score, o) ==> Candidate(u, score(u)) in sorted)
  {
    var cs := Candidates(usage, approved, score, o);
    StableSortMembers(cs, Urgency);
    CandidatesAreWanted(usage, approved, score, o);
  }

  lemma SortedInUsage(usage: seq<PortUsage>, approved: set<string>, score: PortUsage -> RiskResult, o: Options, i: nat)
    requires i < |StableSort(Candidates(usage, approved, score, o), Urgency)|
    ensures StableSort(Candidates(usage, approved, score, o), Urgency)[i].u in usage
  {
    SortedAreWanted(usage, approved, score, o);
  }

  ghost predicate Spares(rules: seq<Rule>, b: Bucket) {
    forall i :: 0 <= i < |rules| ==> !Blocks(rules[i], b.protocol, b.dstPort)
  }

  /** The bucket does not stand on this one's protocol and port, and does not stand for the whole protocol. */
  predicate Clear(a: Bucket, b: Bucket) {
    a.protocol != b.protocol || (a.dstPort != 0 && a.dstPort != b.dstPort)
  }

  lemma RulesSpareIff(sorted: seq<Candidate>, o: Options, b: Bucket)
    ensures Spares(Rules(sorted, o), b) <==> forall i :: 0 <= i < |sorted| ==> Clear(sorted[i].u.bucket, b)
  {
    var rules := Rules(sorted, o);
    RulesLength(sorted, o.precedenceStart, o.precedenceStep);
    forall i | 0 <= i < |sorted| ensures Blocks(rules[i], b.protocol, b.dstPort) <==> !Clear(sorted[i].u.bucket, b) {
      RuleAt(sorted, o.precedenceStart, o.precedenceStep, i);
      BlocksIff(sorted[i], o.precedenceStart + i * o.precedenceStep, b);
    }
  }

  /** A preview spares a bucket, approved or not, exactly when no wanted bucket stands on its protocol and port, or on its
      protocol with port 0. */
  lemma PreviewSparesIff(usage: seq<PortUsage>, approved: set<string>, score: PortUsage -> RiskResult, opts: Options, b: Bucket)
    ensures var o := WithDefaults(opts);
      Spares(Rules(StableSort(Candidates(usage, approved, score, o), Urgency), o), b)
      <==> forall u :: u in usage && Wanted(u, approved, score, o) ==> Clear(u.bucket, b)
  {
    var o := WithDefaults(opts);
    var sorted := StableSort(Candidates(usage, approved, score, o), Urgency);
    SortedAreWanted(usage, approved, score, o);
    RulesSpareIff(sorted, o, b);
    if forall i :: 0 <= i < |sorted| ==> Clear(sorted[i].u.bucket, b) {
      forall u | u in usage && Wanted(u, approved, score, o) ensures Clear(u.bucket, b) {
        var i :| 0 <= i < |sorted| && sorted[i] == Candidate(u, score(u));
      }
    }
  }

  /** Of two buckets in a preview the first has the higher score, or the same score and was seen at least as late. */
  ghost predicate InOrder(cs: seq<Candidate>) {
    forall i, j :: 0 <= i < j < |cs| ==>
      cs[i].r.score > cs[j].r.score
      || (cs[i].r.score == cs[j].r.score && cs[i].u.usage.lastSeen >= cs[j].u.usage.lastSeen)
  }

  /** The buckets of one score and one time, in the order they stand. */
  function Level(cs: seq<Candidate>, score: int, lastSeen: int): seq<Candidate> {
    if cs == [] then []
    else
      var c := cs[|cs| - 1];
      Level(cs[..|cs| - 1], score, lastSeen) + (if c.r.score == score && c.u.usage.lastSeen == lastSeen then [c] else [])
  }

  lemma {:induction false} LevelIsGroup(cs: seq<Candidate>, score: int, lastSeen: int)
    ensures Level(cs, score, lastSeen) == Group(cs, Urgency, Key(score, lastSeen))
  {
    if cs != [] { LevelIsGroup(cs[..|cs| - 1], score, lastSeen); }
  }

  lemma InOrderIff(cs: seq<Candidate>)
    ensures InOrder(cs) <==> SortedBy(cs, Urgency)
  {
    forall i, j | 0 <= i < j < |cs|
      ensures !Before(Urgency(cs[j]), Urgency(cs[i])) <==>
        cs[i].r.score > cs[j].r.score
        || (cs[i].r.score == cs[j].r.score && cs[i].u.usage.lastSeen >= cs[j].u.usage.lastSeen)
    {
    }
  }

  /** The order of a preview: the rules follow a list of exactly the wanted buckets in which higher scores come first, then
      later times, and equals stand as they stood in the usage list. */
  lemma PreviewInOrder(usage: seq<PortUsage>, approved: set<string>, score: PortUsage -> RiskResult, opts: Options)
    ensures var o := WithDefaults(opts); var cs := Candidates(usage, approved, score, o);
      var sorted := StableSort(cs, Urgency);
      && InOrder(sorted) && multiset(sorted) == multiset(cs)
      && forall s, t :: Level(sorted, s, t) == Level(cs, s, t)
  {
    var cs := Candidates(usage, approved, score, WithDefaults(opts));
    var sorted := StableSort(cs, Urgency);
    StableSortSorts(cs, Urgency);
    InOrderIff(sorted);
    forall s, t ensures Level(sorted, s, t) == Level(cs, s, t) {
      LevelIsGroup(sorted, s, t);
      LevelIsGroup(cs, s, t);
      assert Group(sorted, Urgency, Key(s, t)) == Group(cs, Urgency, Key(s, t));
    }
  }

  /** Any list in that order that keeps the wanted buckets of equal standing as they stood gives the very rules of the
      preview: the preview is the unique stable sort. */
  lemma PreviewIsTheStableSort(usage: seq<PortUsage>, approved: set<string>, score: PortUsage -> RiskResult, opts: Options,
                               order: seq<Candidate>)
    requires InOrder(order)
    requires forall s, t :: Level(order, s, t) == Level(Candidates(usage, approved, score, WithDefaults(opts)), s, t)
    ensures var o := WithDefaults(opts);
      Rules(order, o) == Rules(StableSort(Candidates(usage, approved, score, o), Urgency), o)
  {
    var cs := Candidates(usage, approved, score, WithDefaults(opts));
    StableSortSorts(cs, Urgency);
    InOrderIff(order);
    forall k ensures Group(order, Urgency, k) == Group(cs, Urgency, k) {
      LevelIsGroup(order, k.first, k.second);
      LevelIsGroup(cs, k.first, k.second);
      assert Level(order, k.first, k.second) == Level(cs, k.first, k.second);
    }
    StableSortUnique(order, StableSort(cs, Urgency), Urgency);
  }

  /** What a rule says about its bucket. */
  predicate Denies(r: Rule, c: Candidate, precedence: int) {
    var b := c.u.bucket;
    && r.ruleType == "ip" && r.ruleAction == "deny" && r.protocol == b.protocol
    && r.srcType == "all" && r.srcAddr == "" && r.srcMask == "" && r.dstType == "all" && r.dstAddr == "any" && r.dstMask == ""
    && (b.dstPort != 0 ==> r.dstPort == Itoa(b.dstPort)) && (b.dstPort == 0 ==> r.dstPort == "")
    && r.name == (if b.application == "" then "deny-" + b.protocol + "-" + Itoa(b.dstPort)
                  else "deny-" + b.application + "-" + b.protocol + "-" + Itoa(b.dstPort))
    && r.precedence == precedence && r.riskBucket == c.r.bucket && (r.requiresManualGroupSetup <==> b.application != "")
  }

  /** Every rule of a preview denies its bucket, at precedences start, start + step and so on, by default 100, 110, ... */
  lemma PreviewDenies(usage: seq<PortUsage>, approved: set<string>, score: PortUsage -> RiskResult, opts: Options, i: nat)
    requires var o := WithDefaults(opts); i < |StableSort(Candidates(usage, approved, score, o), Urgency)|
    ensures var o := WithDefaults(opts); var sorted := StableSort(Candidates(usage, approved, score, o), Urgency);
      var start, step := if opts.precedenceStart > 0 then opts.precedenceStart else 100,
                         if opts.precedenceStep > 0 then opts.precedenceStep else 10;
      && |Rules(sorted, o)| == |sorted|
      && Denies(Rules(sorted, o)[i], sorted[i], start + i * step)
  {
    var o := WithDefaults(opts);
    RuleAt(StableSort(Candidates(usage, approved, score, o), Urgency), o.precedenceStart, o.precedenceStep, i);
  }

  /** Which buckets a preview denies: those seen often enough, not approved under their key, and risky enough unless low
      risk is asked for. */
  lemma PreviewHolds(usage: seq<PortUsage>, approved: set<string>, score: PortUsage -> RiskResult, opts: Options, u: PortUsage)
    ensures var sorted := StableSort(Candidates(usage, approved, score, WithDefaults(opts)), Urgency);
      Candidate(u, score(u)) in sorted
      <==> u in usage && ApprovedKey(u.bucket.protocol, u.bucket.dstPort, u.bucket.application) !in approved
           && u.usage.sampleCount >= (if opts.minSampleCount > 0 then opts.minSampleCount else 3)
           && (score(u).bucket == Low ==> opts.includeLowRisk)
  {
    var o := WithDefaults(opts);
    StableSortMembers(Candidates(usage, approved, score, o), Urgency);
    CandidatesAreWanted(usage, approved, score, o);
  }

  // ----- Rule names ------------------------------------------------------------------

  predicate HyphenFree(s: string) {
    '-' !in s
  }

  predicate EndsWith(s: string, t: string) {
    |t| <= |s| && s[|s| - |t|..] == t
  }

  /** One of the two ends in a hyphen and the other. */
  predicate Clash(u: string, v: string) {
    EndsWith(u, "-" + v) || EndsWith(v, "-" + u)
  }

  function Head(application: string): string {
    if application == "" then "deny" else "deny-" + application
  }

  /** What a name says after its head: the protocol, and the sign of a negative port. */
  function Tail(b: Bucket): string {
    if b.dstPort < 0 then b.protocol + "-" else b.protocol
  }

  function Size(n: int): nat {
    if n < 0 then -n else n
  }

  lemma NameShape(b: Bucket)
    ensures RuleName(b) == (Head(b.application) + "-" + Tail(b)) + ['-'] + Digits(Size(b.dstPort))
  {
    var d := Digits(Size(b.dstPort));
    assert Itoa(b.dstPort) == (if b.dstPort < 0 then "-" + d else d);
    assert RuleName(b) == Head(b.application) + "-" + b.protocol + "-" + Itoa(b.dstPort);
  }

  /** Two names agree exactly when the sizes of the ports and everything before them do. */
  lemma NameIff(a: Bucket, b: Bucket)
    ensures RuleName(a) == RuleName(b)
      <==> Size(a.dstPort) == Size(b.dstPort) && Head(a.application) + "-" + Tail(a) == Head(b.application) + "-" + Tail(b)
  {
    NameShape(a);
    NameShape(b);
    var x, y := Head(a.application) + "-" + Tail(a), Head(b.application) + "-" + Tail(b);
    var m, n := Size(a.dstPort), Size(b.dstPort);
    if RuleName(a) == RuleName(b) {
      assert '-' !in Digits(m) && '-' !in Digits(n);
      SplitLast(x, Digits(m), y, Digits(n), '-');
      DigitsInjective(m, n);
    }
  }

  /** Texts that end in different tails after a hyphen agree only if the tails clash. */
  lemma TailsMeet(x: string, u: string, y: string, v: string)
    requires x + "-" + u == y + "-" + v
    ensures (x == y && u == v) || Clash(u, v)
  {
    var s := x + "-" + u;
    if |u| == |v| {
      assert u == s[|x| + 1..] && v == s[|y| + 1..];
      assert x == s[..|x|] && y == s[..|y|];
    } else if |u| > |v| {
      ShorterTail(x, u, y, v);
    } else {
      ShorterTail(y, v, x, u);
    }
  }

  lemma ShorterTail(x: string, u: string, y: string, v: string)
    requires x + "-" + u == y + "-" + v && |u| > |v|
    ensures EndsWith(u, "-" + v)
  {
    var s := x + "-" + u;
    assert u == s[|x| + 1..] && s == y + ("-" + v);
    assert "-" + v == s[|y|..];
    assert u[|u| - |v| - 1..] == s[|y|..];
  }

  /** Two applications under which clashing tails make one text. */
  lemma ClashMeets(u: string, v: string) returns (x: string, y: string)
    requires EndsWith(u, "-" + v)
    ensures x != "" && y != "" && Head(x) + "-" + u == Head(y) + "-" + v
  {
    var rest := u[..|u| - |v| - 1];
    x, y := "x", "x-" + rest;
    assert u == rest + ("-" + v);
    assert Head(x) + "-" + u == "deny-x-" + u && Head(y) + "-" + v == "deny-x-" + rest + ("-" + v);
  }

  ghost predicate NamesApart(p: string, q: string, low: bool) {
    forall a: Bucket, b: Bucket ::
      (a.protocol == p && b.protocol == q && a.fw == b.fw && (low || (a.dstPort >= 0 && b.dstPort >= 0))
       && RuleName(a) == RuleName(b)) ==> a == b
  }

  /** For buckets of two protocols and ports that are not negative, a name determines its bucket if and only if neither
      protocol ends in a hyphen and the other. */
  lemma NamesIff(p: string, q: string)
    ensures NamesApart(p, q, false) <==> !Clash(p, q)
  {
    if !Clash(p, q) {
      forall a: Bucket, b: Bucket | a.protocol == p && b.protocol == q && a.fw == b.fw && a.dstPort >= 0 && b.dstPort >= 0
                                    && RuleName(a) == RuleName(b)
        ensures a == b
      {
        NameIff(a, b);
        TailsMeet(Head(a.application), p, Head(b.application), q);
        HeadExact(a.application, b.application);
      }
    } else {
      var a, b := ClashingPair(p, q, 1, 1);
    }
  }

  lemma HeadExact(x: string, y: string)
    ensures Head(x) == Head(y) ==> x == y
  {
    assert x != "" ==> Head(x)[5..] == x;
    assert y != "" ==> Head(y)[5..] == y;
  }

  /** Two different buckets of the protocols with one name, of ports with these signs. */
  lemma ClashingPair(p: string, q: string, m: int, n: int) returns (a: Bucket, b: Bucket)
    requires Size(m) == Size(n)
    requires var u, v := if m < 0 then p + "-" else p, if n < 0 then q + "-" else q; Clash(u, v)
    ensures a.protocol == p && b.protocol == q && a.fw == b.fw && a.dstPort == m && b.dstPort == n
    ensures RuleName(a) == RuleName(b) && a != b
  {
    var u, v := if m < 0 then p + "-" else p, if n < 0 then q + "-" else q;
    var x, y;
    if EndsWith(u, "-" + v) {
      x, y := ClashMeets(u, v);
    } else {
      y, x := ClashMeets(v, u);
    }
    a, b := Bucket("f", p, m, x), Bucket("f", q, n, y);
    NameIff(a, b);
    assert |u| != |v|;
    assert |Head(x)| != |Head(y)|;
  }

  /** Two tails meet when they are one text or clash. */
  predicate Meet(u: string, v: string) {
    u == v || Clash(u, v)
  }

  /** With negative ports, whose sign reads like one more hyphen of the protocol, the condition is wider. */
  lemma NamesIffAnyPort(p: string, q: string)
    ensures NamesApart(p, q, true) <==> !Clash(p, q) && !Meet(p + "-", q) && !Meet(p, q + "-")
  {
    if !Clash(p, q) && !Meet(p + "-", q) && !Meet(p, q + "-") {
      forall a: Bucket, b: Bucket | a.protocol == p && b.protocol == q && a.fw == b.fw && RuleName(a) == RuleName(b)
        ensures a == b
      {
        NameIff(a, b);
        TailsMeet(Head(a.application), Tail(a), Head(b.application), Tail(b));
        SignedClash(p, q);
        CancelEnd(p, q, "-");
        HeadExact(a.application, b.application);
        assert a.dstPort < 0 <==> b.dstPort < 0;
      }
    } else if Clash(p, q) {
      var a, b := ClashingPair(p, q, 1, 1);
    } else if Meet(p + "-", q) {
      var a, b := MeetingPair(p, q, -1, 1);
    } else {
      var a, b := MeetingPair(p, q, 1, -1);
    }
  }

  lemma SignedClash(p: string, q: string)
    ensures Clash(p + "-", q + "-") <==> Clash(p, q)
  {
    SignedEnd(p, q);
    SignedEnd(q, p);
  }

  lemma SignedEnd(p: string, q: string)
    ensures EndsWith(p + "-", "-" + (q + "-")) <==> EndsWith(p, "-" + q)
  {
    var s, t := p + "-", "-" + (q + "-");
    assert |t| <= |s| <==> |"-" + q| <= |p|;
    if |t| <= |s| {
      var end := p[|p| - |q| - 1..];
      assert s[|s| - |t|..] == end + "-";
      assert t == ("-" + q) + "-";
      CancelEnd(end, "-" + q, "-");
    }
  }

  lemma CancelEnd(x: string, y: string, z: string)
    ensures x + z == y + z <==> x == y
  {
    if x + z == y + z {
      assert |x| == |y|;
      assert x == (x + z)[..|x|] && y == (y + z)[..|y|];
    }
  }

  lemma MeetingPair(p: string, q: string, m: int, n: int) returns (a: Bucket, b: Bucket)
    requires Size(m) == Size(n) && m != n
    requires var u, v := if m < 0 then p + "-" else p, if n < 0 then q + "-" else q; Meet(u, v)
    ensures a.protocol == p && b.protocol == q && a.fw == b.fw && RuleName(a) == RuleName(b) && a != b
  {
    var u, v := if m < 0 then p + "-" else p, if n < 0 then q + "-" else q;
    if u == v {
      a, b := Bucket("f", p, m, ""), Bucket("f", q, n, "");
      NameIff(a, b);
    } else {
      a, b := ClashingPair(p, q, m, n);
    }
  }

  /** What a caller can look at: whether names of buckets of two protocols can meet, ports below zero included or not. */
  predicate Apart(p: string, q: string, low: bool) {
    !Clash(p, q) && (low ==> !Meet(p + "-", q) && !Meet(p, q + "-"))
  }

  lemma ApartIff(p: string, q: string, low: bool)
    ensures NamesApart(p, q, low) <==> Apart(p, q, low)
  {
    NamesIff(p, q);
    NamesIffAnyPort(p, q);
  }

  /** Protocols without hyphens, and not empty, never clash: the names of their buckets differ whatever the ports. */
  lemma PlainNamesApart(p: string, q: string)
    requires HyphenFree(p) && HyphenFree(q) && p != "" && q != ""
    ensures Apart(p, q, true)
  {
    NoHyphenEnd(p, q);
    NoHyphenEnd(q, p);
  }

  lemma NoHyphenEnd(p: string, q: string)
    requires HyphenFree(p) && HyphenFree(q) && q != ""
    ensures !EndsWith(p, "-" + q) && !EndsWith(p + "-", "-" + q) && !EndsWith(p, "-" + (q + "-")) && p + "-" != q
  {
    var last := q[|q| - 1];
    assert last in q && last != '-';
    if |q| + 1 <= |p| {
      assert p[|p| - |q| - 1] in p && ("-" + q)[0] == '-';
      assert p[|p| - |q| - 1..][0] == p[|p| - |q| - 1];
    }
    if |q| <= |p| {
      assert ("-" + q)[|q|] == last;
      assert (p + "-")[|p| - |q|..][|q|] == '-';
    }
    if |q| + 2 <= |p| {
      assert p[|p| - |q| - 2] in p;
      assert p[|p| - |q| - 2..][0] == p[|p| - |q| - 2];
    }
    assert (p + "-")[|p|] == '-';
  }

  /** The clash at strings only a caller other than the parser could supply. */
  lemma NamesClash()
    ensures RuleName(Bucket("f", "b-c", 1, "a")) == RuleName(Bucket("f", "c", 1, "a-b")) && Clash("b-c", "c")
  {
    assert Itoa(1) == "1";
    assert "b-c"[1..] == "-" + "c";
  }

  ghost predicate DistinctBuckets(cs: seq<Candidate>) {
    forall i, j :: 0 <= i < j < |cs| ==> cs[i].u.bucket != cs[j].u.bucket
  }

  ghost predicate OneTable(usage: seq<PortUsage>) {
    && (forall i, j :: 0 <= i < j < |usage| ==> usage[i].bucket != usage[j].bucket)
    && (forall i, j :: 0 <= i < j < |usage| ==> usage[i].bucket.fw == usage[j].bucket.fw)
  }

  lemma {:induction false} InsertDistinct(s: seq<Candidate>, x: Candidate)
    requires DistinctBuckets(s) && forall i :: 0 <= i < |s| ==> s[i].u.bucket != x.u.bucket
    ensures DistinctBuckets(InsertRight(s, x, Urgency))
  {
    if s != [] && Before(Urgency(x), Urgency(s[|s| - 1])) {
      InsertDistinct(s[..|s| - 1], x);
      InsertRightMembers(s[..|s| - 1], x, Urgency);
    }
  }

  lemma {:induction false} SortDistinct(cs: seq<Candidate>)
    requires DistinctBuckets(cs)
    ensures DistinctBuckets(StableSort(cs, Urgency))
  {
    if cs != [] {
      var init, x := cs[..|cs| - 1], cs[|cs| - 1];
      SortDistinct(init);
      StableSortSorts(init, Urgency);
      var sorted := StableSort(init, Urgency);
      forall i | 0 <= i < |sorted| ensures sorted[i].u.bucket != x.u.bucket {
        assert sorted[i] in multiset(init) && sorted[i] in init;
      }
      InsertDistinct(sorted, x);
    }
  }

  lemma {:induction false} CandidatesDistinct(usage: seq<PortUsage>, approved: set<string>, score: PortUsage -> RiskResult, o: Options)
    requires OneTable(usage)
    ensures DistinctBuckets(Candidates(usage, approved, score, o))
  {
    if usage != [] {
      var init, u := usage[..|usage| - 1], usage[|usage| - 1];
      CandidatesDistinct(init, approved, score, o);
      CandidatesAreWanted(init, approved, score, o);
      var cs := Candidates(init, approved, score, o);
      forall i | 0 <= i < |cs| ensures cs[i].u.bucket != u.bucket {
        assert cs[i] in cs && cs[i].u in init;
      }
    }
  }

  /** In the preview of one firewall's buckets no two rules share a name when no two buckets' protocols meet, and
      precedences go up by the step. */
  lemma PreviewNamesDiffer(usage: seq<PortUsage>, approved: set<string>, score: PortUsage -> RiskResult, opts: Options, low: bool)
    requires OneTable(usage)
    requires forall u, v :: u in usage && v in usage ==> Apart(u.bucket.protocol, v.bucket.protocol, low)
    requires low || forall u :: u in usage ==> u.bucket.dstPort >= 0
    ensures var o := WithDefaults(opts); var rules := Rules(StableSort(Candidates(usage, approved, score, o), Urgency), o);
      forall i, j :: 0 <= i < j < |rules| ==> rules[i].name != rules[j].name && rules[i].precedence < rules[j].precedence
  {
    var o := WithDefaults(opts);
    var sorted := StableSort(Candidates(usage, approved, score, o), Urgency);
    CandidatesDistinct(usage, approved, score, o);
    SortDistinct(Candidates(usage, approved, score, o));
    RulesLength(sorted, o.precedenceStart, o.precedenceStep);
    forall i, j | 0 <= i < j < |sorted|
      ensures Rules(sorted, o)[i].name != Rules(sorted, o)[j].name
      ensures Rules(sorted, o)[i].precedence < Rules(sorted, o)[j].precedence
    {
      SortedInUsage(usage, approved, score, o, i);
      SortedInUsage(usage, approved, score, o, j);
      assert sorted[i].u.bucket != sorted[j].u.bucket;
      UnlikeNames(usage, sorted[i].u, sorted[j].u, low);
      PairDiffers(sorted, o, i, j);
    }
  }

  lemma UnlikeNames(usage: seq<PortUsage>, u: PortUsage, v: PortUsage, low: bool)
    requires OneTable(usage) && u in usage && v in usage && u.bucket != v.bucket
    requires Apart(u.bucket.protocol, v.bucket.protocol, low) && (low || (u.bucket.dstPort >= 0 && v.bucket.dstPort >= 0))
    ensures RuleName(u.bucket) != RuleName(v.bucket)
  {
    ApartIff(u.bucket.protocol, v.bucket.protocol, low);
    SameFirewall(usage, u, v);
  }

  lemma SameFirewall(usage: seq<PortUsage>, u: PortUsage, v: PortUsage)
    requires OneTable(usage) && u in usage && v in usage
    ensures u.bucket.fw == v.bucket.fw
  {
    var i :| 0 <= i < |usage| && usage[i] == u;
    var j :| 0 <= j < |usage| && usage[j] == v;
  }

  lemma PairDiffers(sorted: seq<Candidate>, o: Options, i: nat, j: nat)
    requires i < j < |sorted| && o.precedenceStep > 0
    requires RuleName(sorted[i].u.bucket) != RuleName(sorted[j].u.bucket)
    ensures var rules := Rules(sorted, o);
      |rules| == |sorted| && rules[i].name != rules[j].name && rules[i].precedence < rules[j].precedence
  {
    RuleAt(sorted, o.precedenceStart, o.precedenceStep, i);
    RuleAt(sorted, o.precedenceStart, o.precedenceStep, j);
    Climb(o.precedenceStep, i, j);
  }

  lemma Climb(step: int, i: int, j: int)
    requires step > 0 && i < j
    ensures i * step < j * step
  {
  }
}
