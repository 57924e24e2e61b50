/** The dashboard statistics of app.js: updateStats and calculateImprovement. */
module Stats {
  import opened Seqs
  import opened Records
  import opened History

  /** `casts.map(c => c.distanza)`. */
  function Distances(casts: seq<Cast>): (d: seq<real>)
    ensures |d| == |casts|
    ensures forall i :: 0 <= i < |casts| ==> d[i] == casts[i].distanza
  {
    seq(|casts|, i requires 0 <= i < |casts| => casts[i].distanza)
  }

  /** The value calculateImprovement returns: `null` when one side of the cutoff is empty, a
      percentage, or a non-finite number (`Infinity` or `NaN`) when the older mean is 0. */
  datatype Improvement = NoComparison | Percent(value: real) | NotFinite

  /** Casts dated at or after the cutoff. */
  function RecentCasts(casts: seq<Cast>, cutoff: int): seq<Cast> {
    Filter(casts, (c: Cast) => c.data >= cutoff)
  }

  /** Casts dated before the cutoff. */
  function OlderCasts(casts: seq<Cast>, cutoff: int): seq<Cast> {
    Filter(casts, (c: Cast) => c.data < cutoff)
  }

  /** `now - days * 24 * 60 * 60 * 1000`. */
  function Cutoff(now: int, days: int): int {
    now - days * DayMs
  }

  /** calculateImprovement(days) at time `now`: the percentage change of the mean distance of
      the recent casts over that of the older ones. */
  function CalculateImprovement(casts: seq<Cast>, now: int, days: int): (r: Improvement)
    ensures var cutoff := Cutoff(now, days);
      r.NoComparison? <==> RecentCasts(casts, cutoff) == [] || OlderCasts(casts, cutoff) == []
    ensures var cutoff := Cutoff(now, days);
      var recent, older := RecentCasts(casts, cutoff), OlderCasts(casts, cutoff);
      recent != [] && older != [] ==>
      var recentAvg, olderAvg := Mean(Distances(recent)), Mean(Distances(older));
      && (r.NotFinite? <==> olderAvg == 0.0)
      && (r.Percent? ==> IsPercentChange(r.value, recentAvg, olderAvg))
  {
    var cutoff := Cutoff(now, days);
    ImprovementOf(RecentCasts(casts, cutoff), OlderCasts(casts, cutoff))
  }

  /** The comparison of two groups of casts: `null` when either is empty, a non-finite number
      when the older mean is 0, and otherwise the percentage change of the mean distance. */
  function ImprovementOf(recent: seq<Cast>, older: seq<Cast>): (r: Improvement)
    ensures r.NoComparison? <==> recent == [] || older == []
    ensures recent != [] && older != [] ==>
      var recentAvg, olderAvg := Mean(Distances(recent)), Mean(Distances(older));
      && (r.NotFinite? <==> olderAvg == 0.0)
      && (r.Percent? ==> IsPercentChange(r.value, recentAvg, olderAvg))
  {
    if recent == [] || older == [] then NoComparison
    else
      var recentAvg := Mean(Distances(recent));
      var olderAvg := Mean(Distances(older));
      if olderAvg == 0.0 then NotFinite
      else Percent(PercentChange(recentAvg, olderAvg))
  }

  /** `p` is the change from `olderAvg` to `recentAvg` in percent of `olderAvg`: times the base,
      it is a hundred times the change. */
  predicate IsPercentChange(p: real, recentAvg: real, olderAvg: real) {
    p * olderAvg == (recentAvg - olderAvg) * 100.0
  }

  /** `((recentAvg - olderAvg) / olderAvg) * 100`. */
  function PercentChange(recentAvg: real, olderAvg: real): (p: real)
    requires olderAvg != 0.0
    ensures IsPercentChange(p, recentAvg, olderAvg)
  {
    var q := (recentAvg - olderAvg) / olderAvg;
    assert q * olderAvg == recentAvg - olderAvg;
    q * 100.0
  }

  /** The recent and the older casts split the history: each cast is in exactly one of them. */
  lemma ImprovementSidesPartition(casts: seq<Cast>, cutoff: int)
    ensures multiset(RecentCasts(casts, cutoff)) + multiset(OlderCasts(casts, cutoff)) == multiset(casts)
    ensures |RecentCasts(casts, cutoff)| + |OlderCasts(casts, cutoff)| == |casts|
    ensures forall c :: c in RecentCasts(casts, cutoff) <==> c in casts && c.data >= cutoff
    ensures forall c :: c in OlderCasts(casts, cutoff) <==> c in casts && c.data < cutoff
  {
    FilterPartition(casts, (c: Cast) => c.data >= cutoff, (c: Cast) => c.data < cutoff);
  }

  /** With both sides non-empty and a positive older mean, the result is a finite percentage
      whose sign is that of `recentAvg - olderAvg`. */
  lemma ImprovementSign(casts: seq<Cast>, now: int, days: int)
    requires RecentCasts(casts, Cutoff(now, days)) != []
    requires OlderCasts(casts, Cutoff(now, days)) != []
    requires Mean(Distances(OlderCasts(casts, Cutoff(now, days)))) > 0.0
    ensures var recentAvg := Mean(Distances(RecentCasts(casts, Cutoff(now, days))));
      var olderAvg := Mean(Distances(OlderCasts(casts, Cutoff(now, days))));
      var r := CalculateImprovement(casts, now, days);
      && r.Percent?
      && (r.value > 0.0 <==> recentAvg > olderAvg)
      && (r.value < 0.0 <==> recentAvg < olderAvg)
      && (r.value == 0.0 <==> recentAvg == olderAvg)
  {
    var cutoff := Cutoff(now, days);
    var recent, older := RecentCasts(casts, cutoff), OlderCasts(casts, cutoff);
    assert |recent| != 0 && |older| != 0;
    var recentAvg, olderAvg := Mean(Distances(recent)), Mean(Distances(older));
    assert CalculateImprovement(casts, now, days) == Percent((recentAvg - olderAvg) / olderAvg * 100.0);
    QuotientSign(recentAvg - olderAvg, olderAvg);
  }

  lemma QuotientSign(a: real, b: real)
    requires b > 0.0
    ensures (a / b * 100.0 > 0.0 <==> a > 0.0) && (a / b * 100.0 < 0.0 <==> a < 0.0)
  {
    var q := a / b;
    assert a == q * b;
  }

  /** What the dashboard shows: the mean, the record, the total count and the 30-day
      improvement. */
  datatype DashboardStats = DashboardStats(media: real, record: real, totale: nat, miglioramento: Improvement)

  /** updateStats: runs only when the history is non-empty (updateDashboard returns before it
      otherwise). The mean is sum over count and lies between the shortest and the longest
      distance; the record is the longest distance; the total is the number of casts. */
  function UpdateStats(casts: seq<Cast>, now: int): (r: DashboardStats)
    requires |casts| > 0
    ensures r.totale == |casts|
    ensures r.media == Mean(Distances(casts))
    ensures Min(Distances(casts)) <= r.media <= Max(Distances(casts))
    ensures exists c :: c in casts && c.distanza == r.record
    ensures forall c :: c in casts ==> c.distanza <= r.record
    ensures r.miglioramento == CalculateImprovement(casts, now, 30)
  {
    var d := Distances(casts);
    MeanBetweenMinAndMax(d);
    RecordIsLongest(casts);
    DashboardStats(Mean(d), Max(d), |casts|, CalculateImprovement(casts, now, 30))
  }

  /** `Math.max(...distanze)` is the distance of some cast, and no cast went further. */
  lemma RecordIsLongest(casts: seq<Cast>)
    requires |casts| > 0
    ensures exists c :: c in casts && c.distanza == Max(Distances(casts))
    ensures forall c :: c in casts ==> c.distanza <= Max(Distances(casts))
  {
    var d := Distances(casts);
    var k :| 0 <= k < |d| && d[k] == Max(d);
    assert casts[k] in casts;
    forall c | c in casts ensures c.distanza <= Max(d) {
      var j :| 0 <= j < |casts| && casts[j] == c;
      assert d[j] in d;
    }
  }

  /** updateDashboard's choice: the empty view for an empty history, the statistics otherwise. */
  datatype Dashboard = EmptyDashboard | StatsDashboard(stats: DashboardStats)

  function UpdateDashboard(casts: seq<Cast>, now: int): (r: Dashboard)
    ensures r.EmptyDashboard? <==> casts == []
    ensures r.StatsDashboard? ==> r.stats.totale == |casts|
  {
    if |casts| == 0 then EmptyDashboard else StatsDashboard(UpdateStats(casts, now))
  }
}
