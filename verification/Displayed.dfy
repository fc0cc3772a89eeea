// What the dashboard groups, against what the rollup recorded.

module Displayed {
  import opened Tables
  import opened Tracker
  import opened Ruleset
  import opened Conservation
  import G = Grouping
  import L = Tallies

  /** The addresses recorded for a bucket in port_usage_dst_ips. */
  function IpsOf(dst: map<DstKey, int>, b: Bucket): set<string> {
    set d | d in dst && d.bucket == b :: d.ip
  }

  lemma IpsCounted(dst: map<DstKey, int>, b: Bucket)
    ensures |IpsOf(dst, b)| == |DstOf(dst, b)|
  {
    OneToOne(DstOf(dst, b), b);
    assert IpsOf(dst, b) == set d | d in DstOf(dst, b) :: d.ip;
  }

  lemma {:induction false} OneToOne(s: set<DstKey>, b: Bucket)
    requires forall d :: d in s ==> d.bucket == b
    ensures |set d | d in s :: d.ip| == |s|
  {
    var ips := set d | d in s :: d.ip;
    if s != {} {
      var x :| x in s;
      OneToOne(s - {x}, b);
      var rest := set d | d in s - {x} :: d.ip;
      assert ips == rest + {x.ip};
      forall d | d in s - {x} ensures d.ip != x.ip {
        assert d.bucket == x.bucket && d != x;
      }
    }
  }

  /** A row the dashboard shows is a row of port_usage. */
  ghost predicate Shown(usage: map<Bucket, Usage>, rows: seq<Candidate>) {
    forall i :: 0 <= i < |rows| ==> rows[i].u.bucket in usage && rows[i].u.usage == usage[rows[i].u.bucket]
  }

  /** After any run, failing calls included, for any rows of port_usage taken together: the sum shown as distinct
      destinations is never below the number of different addresses recorded for these buckets, and equal to it exactly
      when no two of them share a recorded address. */
  lemma RecordedDestinationsBound(env: Env, events: seq<Event>, rows: seq<Candidate>)
    requires Shown(Run(env, START, events).db.usage, rows)
    ensures var dst := Run(env, START, events).db.dst; var ips := (c: Candidate) => IpsOf(dst, c.u.bucket);
      && |G.Union(rows, ips)| <= L.SumOf(rows, G.Destinations)
      && (|G.Union(rows, ips)| == L.SumOf(rows, G.Destinations) <==> G.Apart(rows, ips))
  {
    var db := Run(env, START, events).db;
    var dst := db.dst;
    var ips := (c: Candidate) => IpsOf(dst, c.u.bucket);
    RollupTallied(env, events);
    forall i | 0 <= i < |rows| ensures rows[i].u.usage.distinctDstIPs == |ips(rows[i])| {
      assert BucketTallied(db.usage, db.dst, rows[i].u.bucket);
      IpsCounted(dst, rows[i].u.bucket);
    }
    G.DestinationsBound(rows, ips);
  }

  /** In particular for what one group of the dashboard holds. */
  lemma GroupDestinationsBound(env: Env, events: seq<Event>, rows: seq<Candidate>, i: nat)
    requires Shown(Run(env, START, events).db.usage, rows)
    requires i < |L.Groups(rows, G.PortKey, G.FirstPort, G.MergePort)|
    ensures var dst := Run(env, START, events).db.dst; var ips := (c: Candidate) => IpsOf(dst, c.u.bucket);
      var g := L.Groups(rows, G.PortKey, G.FirstPort, G.MergePort)[i];
      && |G.Union(g.applications, ips)| <= g.distinctDstIPs
      && (|G.Union(g.applications, ips)| == g.distinctDstIPs <==> G.Apart(g.applications, ips))
  {
    G.PortGroupsExact(rows);
    var t := L.Gather(rows, G.PortKey, G.FirstPort, G.MergePort);
    var ms := L.Members(rows, G.PortKey, t.order[i]);
    L.MembersFrom(rows, G.PortKey, t.order[i]);
    forall j | 0 <= j < |ms|
      ensures ms[j].u.bucket in Run(env, START, events).db.usage
      ensures ms[j].u.usage == Run(env, START, events).db.usage[ms[j].u.bucket]
    {
      assert ms[j] in ms && ms[j] in rows;
    }
    RecordedDestinationsBound(env, events, ms);
  }
}
