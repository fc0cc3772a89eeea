// Keys built by joining fields with a pipe, and the list of approved ports looked up by such a key.

module Keys {
  import opened Text
  import opened Flows
  import opened Tables

  // ----- Joining with pipes ----------------------------------------------------------

  /** Two texts joined by a character neither second part holds split at one place only. */
  lemma SplitLast(a: string, b: string, c: string, d: string, sep: char)
    requires sep !in b && sep !in d && a + [sep] + b == c + [sep] + d
    ensures a == c && b == d
  {
    var s := a + [sep] + b;
    assert s == c + [sep] + d;
    assert s[|a|] == sep && s[|c|] == sep;
    assert |a| == |c|;
    assert a == s[..|a|] && c == s[..|c|] && b == s[|a| + 1..] && d == s[|c| + 1..];
  }

  predicate PipeFree(s: string) {
    '|' !in s
  }

  /** Two keys of flows whose addresses and ports hold no pipe, as in every parsed row, are equal exactly when the
      upper-cased protocol, the addresses and the ports are. */
  lemma SessionKeyExact(f: Flow, g: Flow)
    requires PipeFree(f.originSrc) && PipeFree(f.originDst) && PipeFree(f.srcPort) && PipeFree(f.dstPort)
    requires PipeFree(g.originSrc) && PipeFree(g.originDst) && PipeFree(g.srcPort) && PipeFree(g.dstPort)
    ensures SessionKey(f) == SessionKey(g)
      <==> ToUpper(f.protocol) == ToUpper(g.protocol) && f.originSrc == g.originSrc && f.originDst == g.originDst
           && f.srcPort == g.srcPort && f.dstPort == g.dstPort
  {
    if SessionKey(f) == SessionKey(g) {
      var f1, g1 := ToUpper(f.protocol), ToUpper(g.protocol);
      var f2, g2 := f1 + "|" + f.originSrc, g1 + "|" + g.originSrc;
      var f3, g3 := f2 + "|" + f.originDst, g2 + "|" + g.originDst;
      var f4, g4 := f3 + "|" + f.srcPort, g3 + "|" + g.srcPort;
      SplitLast(f4, f.dstPort, g4, g.dstPort, '|');
      SplitLast(f3, f.srcPort, g3, g.srcPort, '|');
      SplitLast(f2, f.originDst, g2, g.originDst, '|');
      SplitLast(f1, f.originSrc, g1, g.originSrc, '|');
    }
  }

  // ----- Approved ports --------------------------------------------------------------

  function ApprovedKey(protocol: string, dstPort: int, application: string): string {
    protocol + "|" + Itoa(dstPort) + "|" + application
  }

  predicate HasAt(s: string, t: string, k: nat) {
    k + |t| <= |s| && s[k..k + |t|] == t
  }

  ghost predicate Has(s: string, t: string) {
    exists k: nat :: HasAt(s, t, k)
  }

  function Piped(m: int): string {
    "|" + Itoa(m) + "|"
  }

  /** No number stands between two pipes anywhere but where the port does. */
  ghost predicate Unambiguous(p: string, a: string) {
    forall m :: !Has(p + "|", Piped(m)) && !Has("|" + a, Piped(m))
  }

  ghost predicate OnlyOne(p: string, n: int, a: string) {
    forall q, m, b :: ApprovedKey(q, m, b) == ApprovedKey(p, n, a) ==> q == p && m == n && b == a
  }

  lemma Cut(s: string, t: string, k: nat)
    requires HasAt(s, t, k)
    ensures s == s[..k] + t + s[k + |t|..]
  {
    assert s == s[..k] + s[k..k + |t|] + s[k + |t|..];
  }

  /** Where the middle of three pieces stands. */
  lemma Middle(p: string, t: string, a: string, s: string)
    requires s == p + t + a
    ensures |s| == |p| + |t| + |a| && HasAt(s, t, |p|) && s[..|p|] == p && s[|p| + |t|..] == a
    ensures forall i :: 0 <= i < |t| ==> s[|p| + i] == t[i]
  {
  }

  lemma KeyMiddle(p: string, n: int, a: string)
    ensures ApprovedKey(p, n, a) == p + Piped(n) + a
  {
  }

  lemma KeyHead(p: string, n: int, a: string)
    ensures ApprovedKey(p, n, a) == (p + "|") + (Itoa(n) + "|" + a) && p + "|" <= ApprovedKey(p, n, a)
  {
  }

  lemma KeyTail(p: string, n: int, a: string)
    ensures var head := p + "|" + Itoa(n); ApprovedKey(p, n, a) == head + ("|" + a) && ApprovedKey(p, n, a)[|head|..] == "|" + a
  {
  }

  /** A pipe, a number, a pipe: no pipe in between. */
  lemma PipedShape(m: int)
    ensures var t := Piped(m); |t| == |Itoa(m)| + 2 >= 3 && t[0] == '|' && t[|t| - 1] == '|' && t[1..|t| - 1] == Itoa(m)
    ensures forall i :: 0 < i < |Piped(m)| - 1 ==> Piped(m)[i] != '|'
  {
    forall i | 0 < i < |Piped(m)| - 1 ensures Piped(m)[i] != '|' {
      assert Piped(m)[i] == Itoa(m)[i - 1] && Itoa(m)[i - 1] in Itoa(m);
    }
  }

  /** The piece's ends are pipes in the text, and nothing in between is. */
  lemma PipesAt(s: string, m: int, k: nat)
    requires HasAt(s, Piped(m), k)
    ensures var e := k + |Piped(m)| - 1; k < e < |s| && s[k] == '|' && s[e] == '|'
    ensures forall j :: k < j < k + |Piped(m)| - 1 ==> s[j] != '|'
  {
    var t := Piped(m);
    PipedShape(m);
    forall j | k <= j < k + |t| ensures s[j] == t[j - k] {
      assert s[k..k + |t|][j - k] == s[j];
    }
  }

  /** Two such pieces in one text overlap in a pipe at most. */
  lemma PiecesApart(s: string, n: int, i: nat, m: int, k: nat)
    requires HasAt(s, Piped(n), i) && HasAt(s, Piped(m), k) && k < i
    ensures k + |Piped(m)| <= i + 1
  {
    PipesAt(s, n, i);
    PipesAt(s, m, k);
  }

  lemma SameLength(s: string, k: nat, n: int, m: int)
    requires HasAt(s, Piped(n), k) && HasAt(s, Piped(m), k)
    ensures |Piped(n)| == |Piped(m)|
  {
    PipesAt(s, n, k);
    PipesAt(s, m, k);
  }

  lemma HasInPrefix(s: string, t: string, k: nat, p: string)
    requires HasAt(s, t, k) && p <= s && k + |t| <= |p|
    ensures Has(p, t)
  {
    assert p[k..k + |t|] == s[k..k + |t|];
    assert HasAt(p, t, k);
  }

  lemma HasInSuffix(s: string, t: string, k: nat, from: nat)
    requires HasAt(s, t, k) && from <= k
    ensures Has(s[from..], t)
  {
    assert s[from..][k - from..k - from + |t|] == s[k..k + |t|];
    assert HasAt(s[from..], t, k - from);
  }

  /** Both readings of a key stand in the one text. */
  lemma TwoReadings(p: string, n: int, a: string, q: string, m: int, b: string)
    requires ApprovedKey(q, m, b) == ApprovedKey(p, n, a)
    ensures var s := ApprovedKey(p, n, a);
      HasAt(s, Piped(n), |p|) && HasAt(s, Piped(m), |q|) && s[..|p|] == p && s[..|q|] == q
      && s[|p| + |Piped(n)|..] == a && s[|q| + |Piped(m)|..] == b
  {
    var s := ApprovedKey(p, n, a);
    KeyMiddle(p, n, a);
    KeyMiddle(q, m, b);
    Middle(p, Piped(n), a, s);
    Middle(q, Piped(m), b, s);
  }

  /** A key read with its port further to the left: the port's pipes lie within the protocol. */
  lemma ReadLeft(p: string, n: int, a: string, q: string, m: int, b: string)
    requires ApprovedKey(q, m, b) == ApprovedKey(p, n, a) && |q| < |p|
    ensures Has(p + "|", Piped(m))
  {
    var s := ApprovedKey(p, n, a);
    TwoReadings(p, n, a, q, m, b);
    PiecesApart(s, n, |p|, m, |q|);
    KeyHead(p, n, a);
    HasInPrefix(s, Piped(m), |q|, p + "|");
  }

  /** Further to the right: they lie within the application. */
  lemma ReadRight(p: string, n: int, a: string, q: string, m: int, b: string)
    requires ApprovedKey(q, m, b) == ApprovedKey(p, n, a) && |p| < |q|
    ensures Has("|" + a, Piped(m))
  {
    var s, head := ApprovedKey(p, n, a), p + "|" + Itoa(n);
    TwoReadings(p, n, a, q, m, b);
    PiecesApart(s, m, |q|, n, |p|);
    KeyTail(p, n, a);
    HasInSuffix(s, Piped(m), |q|, |head|);
  }

  lemma ReadSame(p: string, n: int, a: string, q: string, m: int, b: string)
    requires ApprovedKey(q, m, b) == ApprovedKey(p, n, a) && |p| == |q|
    ensures q == p && m == n && b == a
  {
    TwoReadings(p, n, a, q, m, b);
    SameLength(ApprovedKey(p, n, a), |p|, n, m);
    PipedShape(n);
    PipedShape(m);
    ItoaInjective(n, m);
  }

  /** A number between pipes in the protocol gives a second reading... */
  lemma LeftReads(p: string, n: int, a: string, m: int, k: nat) returns (q: string, b: string)
    requires HasAt(p + "|", Piped(m), k)
    ensures ApprovedKey(q, m, b) == ApprovedKey(p, n, a) && |q| < |p|
  {
    PipedShape(m);
    var pipe, t := p + "|", Piped(m);
    var tail := Itoa(n) + "|" + a;
    Cut(pipe, t, k);
    q := pipe[..k];
    var back := pipe[k + |t|..];
    b := back + tail;
    KeyMiddle(q, m, b);
    KeyHead(p, n, a);
    Regroup(q, t, back, tail);
  }

  lemma Rejoin(x: string, y: string, z: string, w: string)
    ensures x + (y + z + w) == (x + y) + z + w
  {
  }

  lemma Regroup(x: string, y: string, z: string, w: string)
    ensures (x + y + z) + w == x + y + (z + w)
  {
  }

  /** ... and so does one in the application. */
  lemma RightReads(p: string, n: int, a: string, m: int, k: nat) returns (q: string, b: string)
    requires HasAt("|" + a, Piped(m), k)
    ensures ApprovedKey(q, m, b) == ApprovedKey(p, n, a) && |p| < |q|
  {
    var pipe, t := "|" + a, Piped(m);
    var head := p + "|" + Itoa(n);
    Cut(pipe, t, k);
    var front := pipe[..k];
    q, b := head + front, pipe[k + |t|..];
    KeyMiddle(q, m, b);
    KeyTail(p, n, a);
    Rejoin(head, front, t, b);
  }

  /** An approval key, of any strings, names one bucket if and only if no number stands between two pipes in the protocol
      with a pipe after it, nor in the application with a pipe before it. */
  lemma ApprovedKeyIff(p: string, n: int, a: string)
    ensures OnlyOne(p, n, a) <==> Unambiguous(p, a)
  {
    if Unambiguous(p, a) {
      forall q, m, b | ApprovedKey(q, m, b) == ApprovedKey(p, n, a) ensures q == p && m == n && b == a {
        if |q| < |p| { ReadLeft(p, n, a, q, m, b); }
        if |p| < |q| { ReadRight(p, n, a, q, m, b); }
        ReadSame(p, n, a, q, m, b);
      }
    } else {
      var m :| Has(p + "|", Piped(m)) || Has("|" + a, Piped(m));
      var q, b;
      if Has(p + "|", Piped(m)) {
        var k: nat :| HasAt(p + "|", Piped(m), k);
        q, b := LeftReads(p, n, a, m, k);
      } else {
        var k: nat :| HasAt("|" + a, Piped(m), k);
        q, b := RightReads(p, n, a, m, k);
      }
      assert ApprovedKey(q, m, b) == ApprovedKey(p, n, a) && q != p;
    }
  }

  /** The approve handler takes any strings, and these two different approvals share a key. */
  lemma ApprovedKeyClash()
    ensures ApprovedKey("TCP", 443, "a|1|b") == ApprovedKey("TCP|443|a", 1, "b")
    ensures !Unambiguous("TCP", "a|1|b")
  {
    assert ApprovedKey("TCP|443|a", 1, "b") == ApprovedKey("TCP", 443, "a|1|b") by {
      assert Itoa(1) == "1";
      assert Digits(443) == Digits(44) + "3" && Digits(44) == "44";
      assert Itoa(443) == "443";
    }
    ApprovedKeyIff("TCP", 443, "a|1|b");
    assert "TCP|443|a" != "TCP";
  }

  lemma PipeFreeUnambiguous(p: string, a: string)
    requires PipeFree(p) && PipeFree(a)
    ensures Unambiguous(p, a)
  {
    assert forall i :: 0 <= i < |p| ==> p[i] in p;
    assert forall i :: 0 <= i < |a| ==> a[i] in a;
    forall m ensures !Has(p + "|", Piped(m)) && !Has("|" + a, Piped(m)) {
      PipedShape(m);
      NoneBefore(p, Piped(m));
      NoneAfter(a, Piped(m));
    }
  }

  lemma NoneBefore(p: string, t: string)
    requires |t| >= 2 && t[0] == '|' && forall i :: 0 <= i < |p| ==> p[i] != '|'
    ensures !Has(p + "|", t)
  {
    var s := p + "|";
    forall k: nat | k + |t| <= |s| ensures !HasAt(s, t, k) {
      assert s[k..k + |t|][0] == p[k];
    }
  }

  lemma NoneAfter(a: string, t: string)
    requires |t| >= 2 && t[|t| - 1] == '|' && forall i :: 0 <= i < |a| ==> a[i] != '|'
    ensures !Has("|" + a, t)
  {
    var s, e := "|" + a, |t| - 1;
    forall k: nat | k + |t| <= |s| ensures !HasAt(s, t, k) {
      assert s[k..k + |t|][e] == s[k + e] == a[k + e - 1];
    }
  }

  datatype Approval = Approval(title: string, approvedBy: string, approvedAt: int)

  /** The keys of one firewall's approvals. */
  function ApprovedKeys(rows: map<Bucket, Approval>, fw: string): set<string> {
    set b | b in rows && b.fw == fw :: ApprovedKey(b.protocol, b.dstPort, b.application)
  }

  /** Looking a bucket up by its key finds exactly its own approval, in every table, if and only if its key is
      unambiguous. */
  lemma LookupIff(fw: string, p: string, n: int, a: string)
    ensures (forall rows :: ApprovedKey(p, n, a) in ApprovedKeys(rows, fw) <==> Bucket(fw, p, n, a) in rows)
      <==> Unambiguous(p, a)
  {
    ApprovedKeyIff(p, n, a);
    if OnlyOne(p, n, a) {
      forall rows ensures ApprovedKey(p, n, a) in ApprovedKeys(rows, fw) <==> Bucket(fw, p, n, a) in rows {
        LookupFinds(rows, fw, p, n, a);
      }
    } else {
      var q, m, b :| ApprovedKey(q, m, b) == ApprovedKey(p, n, a) && !(q == p && m == n && b == a);
      var other := Bucket(fw, q, m, b);
      var rows: map<Bucket, Approval> := map[other := Approval("", "", 0)];
      assert other in rows && ApprovedKey(p, n, a) in ApprovedKeys(rows, fw) && Bucket(fw, p, n, a) !in rows;
    }
  }

  lemma LookupFinds(rows: map<Bucket, Approval>, fw: string, p: string, n: int, a: string)
    requires OnlyOne(p, n, a)
    ensures ApprovedKey(p, n, a) in ApprovedKeys(rows, fw) <==> Bucket(fw, p, n, a) in rows
  {
    if ApprovedKey(p, n, a) in ApprovedKeys(rows, fw) {
      var b :| b in rows && b.fw == fw && ApprovedKey(b.protocol, b.dstPort, b.application) == ApprovedKey(p, n, a);
      assert b == Bucket(fw, p, n, a);
    }
  }

  /** Looking a pipe-free bucket up by its key finds exactly that bucket's approval. */
  lemma LookupExact(rows: map<Bucket, Approval>, fw: string, p: string, n: int, a: string)
    requires PipeFree(p) && PipeFree(a)
    ensures ApprovedKey(p, n, a) in ApprovedKeys(rows, fw) <==> Bucket(fw, p, n, a) in rows
  {
    PipeFreeUnambiguous(p, a);
    ApprovedKeyIff(p, n, a);
    LookupFinds(rows, fw, p, n, a);
  }

  /** An approval adds the one bucket to what is found, and a withdrawal takes the one bucket away: any firewall's other
      unambiguous buckets are found afterwards exactly if they were before. */
  lemma ApprovalsChangeOne(rows: map<Bucket, Approval>, b: Bucket, x: Approval, fw: string, p: string, n: int, a: string)
    requires Unambiguous(p, a)
    ensures var k, here := ApprovedKey(p, n, a), Bucket(fw, p, n, a);
      && (k in ApprovedKeys(rows[b := x], fw) <==> here == b || k in ApprovedKeys(rows, fw))
      && (k in ApprovedKeys(rows - {b}, fw) <==> here != b && k in ApprovedKeys(rows, fw))
  {
    ApprovedKeyIff(p, n, a);
    LookupFinds(rows, fw, p, n, a);
    LookupFinds(rows[b := x], fw, p, n, a);
    LookupFinds(rows - {b}, fw, p, n, a);
  }

  /** The approved_ports table. */
  class Approvals {
    var rows: map<Bucket, Approval>

    constructor ()
      ensures rows == map[]
    {
      rows := map[];
    }

    method ApprovePort(b: Bucket, title: string, approvedBy: string, now: int)
      modifies this
      ensures rows == old(rows)[b := Approval(title, approvedBy, Unix(now))]
    {
      rows := rows[b := Approval(title, approvedBy, Unix(now))];
    }

    method UnapprovePort(b: Bucket)
      modifies this
      ensures rows == old(rows) - {b}
    {
      rows := rows - {b};
    }

    method ApprovedSet(fw: string) returns (out: set<string>)
      ensures out == ApprovedKeys(rows, fw)
    {
      out := {};
      var todo := rows.Keys;
      while todo != {}
        invariant todo <= rows.Keys
        invariant out == set b | b in rows && b !in todo && b.fw == fw :: ApprovedKey(b.protocol, b.dstPort, b.application)
        decreases |todo|
      {
        var b :| b in todo;
        todo := todo - {b};
        if b.fw == fw {
          out := out + {ApprovedKey(b.protocol, b.dstPort, b.application)};
        }
      }
    }
  }
}
