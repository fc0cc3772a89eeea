// What the program's keys and names tell apart for rows that came from the device.

module Parsed {
  import opened Text
  import opened Nse
  import opened Sorting
  import opened Risk
  import opened Ruleset
  import opened Tracker

  lemma ListedIsPlain(p: string)
    requires Listed(p)
    ensures HyphenFree(p) && p != ""
  {
    forall i | 0 <= i < |p| ensures p[i] != '-' {
      assert ToUpper(p)[i] == UpperChar(p[i]) && ToUpper(p)[i] != '-';
    }
  }

  /** Rule names of parsed rows, of one poll or of two, in any case of the protocol and for any port text, are equal only for
      rows of one bucket. */
  lemma ParsedNamesExact(raw1: string, i: nat, raw2: string, j: nat, fw: string)
    requires i < |Parse(raw1)| && j < |Parse(raw2)|
    ensures var a, b := BucketOf(fw, Parse(raw1)[i]), BucketOf(fw, Parse(raw2)[j]);
      RuleName(a) == RuleName(b) ==> a == b
  {
    ParsedWellFormed(raw1);
    ParsedWellFormed(raw2);
    var f, g := Parse(raw1)[i], Parse(raw2)[j];
    ListedIsPlain(f.protocol);
    ListedIsPlain(g.protocol);
    PlainNamesApart(f.protocol, g.protocol);
    ApartIff(f.protocol, g.protocol, true);
    assert NamesApart(f.protocol, g.protocol, true);
  }

  /** So in any preview of one firewall's buckets of the four protocols, negative ports included, no two rules share a name. */
  lemma ParsedPreviewNames(usage: seq<PortUsage>, approved: set<string>, score: PortUsage -> RiskResult, opts: Options)
    requires OneTable(usage) && forall u :: u in usage ==> Listed(u.bucket.protocol)
    ensures var o := WithDefaults(opts); var rules := Rules(StableSort(Candidates(usage, approved, score, o), Urgency), o);
      forall i, j :: 0 <= i < j < |rules| ==> rules[i].name != rules[j].name && rules[i].precedence < rules[j].precedence
  {
    forall u, v | u in usage && v in usage ensures Apart(u.bucket.protocol, v.bucket.protocol, true) {
      ListedIsPlain(u.bucket.protocol);
      ListedIsPlain(v.bucket.protocol);
      PlainNamesApart(u.bucket.protocol, v.bucket.protocol);
    }
    PreviewNamesDiffer(usage, approved, score, opts, true);
  }
}
