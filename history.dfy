/** The history view and history maintenance of app.js: deleteCast and filterHistory. */
module History {
  import opened Options
  import opened Seqs
  import opened Records

  /** Milliseconds in a day, `24 * 60 * 60 * 1000`. */
  const DayMs: int := 86400000

  /** The values of the sort selector: the four orders, or anything else (no reordering). */
  datatype SortOrder = DataDesc | DataAsc | DistanzaDesc | DistanzaAsc | Unsorted

  /** Each comparator of filterHistory is `Key(a) - Key(b)` for this key: `a` goes first when its
      key is smaller, and equal keys keep their order. */
  function Key(c: Cast, o: SortOrder): real {
    match o
    case DataDesc => -(c.data as real)
    case DataAsc => c.data as real
    case DistanzaDesc => -c.distanza
    case DistanzaAsc => c.distanza
    case Unsorted => 0.0
  }

  ghost predicate SortedBy(s: seq<Cast>, o: SortOrder) {
    forall i, j :: 0 <= i < j < |s| ==> Key(s[i], o) <= Key(s[j], o)
  }

  /** What each order means for any two casts of the list. */
  ghost predicate OrderedAs(s: seq<Cast>, o: SortOrder) {
    match o
    case DataDesc => forall i, j :: 0 <= i < j < |s| ==> s[i].data >= s[j].data
    case DataAsc => forall i, j :: 0 <= i < j < |s| ==> s[i].data <= s[j].data
    case DistanzaDesc => forall i, j :: 0 <= i < j < |s| ==> s[i].distanza >= s[j].distanza
    case DistanzaAsc => forall i, j :: 0 <= i < j < |s| ==> s[i].distanza <= s[j].distanza
    case Unsorted => true
  }

  lemma SortedByMeansOrderedAs(s: seq<Cast>, o: SortOrder)
    requires SortedBy(s, o)
    ensures OrderedAs(s, o)
  {
    forall i, j | 0 <= i < j < |s| ensures Key(s[i], o) <= Key(s[j], o) {
    }
  }

  /** A cast whose key is at most that of the head of a sorted list can go in front of it. */
  lemma SortedCons(a: Cast, rest: seq<Cast>, o: SortOrder)
    requires SortedBy(rest, o)
    requires rest == [] || Key(a, o) <= Key(rest[0], o)
    ensures SortedBy([a] + rest, o)
  {
    var r := [a] + rest;
    forall i, j | 0 <= i < j < |r| ensures Key(r[i], o) <= Key(r[j], o) {
      if i == 0 && j > 1 {
        assert Key(rest[0], o) <= Key(rest[j - 1], o);
      }
    }
  }

  /** Inserts `x` before the first element whose key is not smaller: stable for an `x` that
      came before all of `t`. */
  function Insert(x: Cast, t: seq<Cast>, o: SortOrder): (r: seq<Cast>)
    ensures |r| == |t| + 1
    ensures r[0] == x || (t != [] && r[0] == t[0])
  {
    if t == [] then [x]
    else if Key(x, o) <= Key(t[0], o) then [x] + t
    else [t[0]] + Insert(x, t[1..], o)
  }

  /** Inserting adds `x` and nothing else. */
  lemma {:induction false} InsertPermutes(x: Cast, t: seq<Cast>, o: SortOrder)
    ensures multiset(Insert(x, t, o)) == multiset(t) + multiset{x}
  {
    if t != [] && Key(t[0], o) < Key(x, o) {
      InsertPermutes(x, t[1..], o);
      assert t == [t[0]] + t[1..];
    }
  }

  /** Inserting into a sorted list keeps it sorted. */
  lemma {:induction false} InsertSorted(x: Cast, t: seq<Cast>, o: SortOrder)
    requires SortedBy(t, o)
    ensures SortedBy(Insert(x, t, o), o)
  {
    if t == [] {
    } else if Key(x, o) <= Key(t[0], o) {
      SortedCons(x, t, o);
    } else {
      var tail := t[1..];
      assert SortedBy(tail, o);
      InsertSorted(x, tail, o);
      var rest := Insert(x, tail, o);
      assert rest[0] != x ==> Key(t[0], o) <= Key(t[1], o);
      SortedCons(t[0], rest, o);
    }
  }

  /** `Array.prototype.sort` with the comparator of order `o`: a stable sort by `Key`. */
  function Sort(s: seq<Cast>, o: SortOrder): (r: seq<Cast>)
    ensures multiset(r) == multiset(s)
    ensures SortedBy(r, o)
  {
    if s == [] then []
    else
      var t := Sort(s[1..], o);
      assert multiset(s) == multiset(s[1..]) + multiset{s[0]} by {
        assert s == [s[0]] + s[1..];
      }
      InsertPermutes(s[0], t, o);
      InsertSorted(s[0], t, o);
      Insert(s[0], t, o)
  }

  /** With the fall-through comparator (always 0) the list keeps its order. */
  lemma {:induction false} SortUnsortedKeepsOrder(s: seq<Cast>)
    ensures Sort(s, Unsorted) == s
  {
    if s != [] {
      SortUnsortedKeepsOrder(s[1..]);
    }
  }

  /** deleteCast: `this.casts.filter(c => c.id !== id)`. */
  function DeleteById(casts: seq<Cast>, id: real): (r: seq<Cast>)
    ensures forall c :: c in r <==> c in casts && c.id != id
    ensures multiset(r) <= multiset(casts)
    ensures IsSubsequence(r, casts)
    ensures |r| + |Filter(casts, (c: Cast) => c.id == id)| == |casts|
  {
    FilterIsSubsequence(casts, (c: Cast) => c.id != id);
    FilterPartition(casts, (c: Cast) => c.id != id, (c: Cast) => c.id == id);
    Filter(casts, (c: Cast) => c.id != id)
  }

  /** The period selector: `parseInt` gives `None` for 'tutti' (NaN, no filter); 0 also means
      no filter. */
  predicate PeriodActive(periodo: Option<int>) {
    periodo.Some? && periodo.value != 0
  }

  /** A cast the two filters of filterHistory keep. */
  predicate Kept(c: Cast, tecnicaFilter: string, periodo: Option<int>, now: int) {
    && (tecnicaFilter != "" ==> c.tecnica == tecnicaFilter)
    && (PeriodActive(periodo) ==> c.data >= now - periodo.value * DayMs)
  }

  /** The technique filter's predicate. */
  function TecnicaIs(tecnicaFilter: string): Cast -> bool {
    (c: Cast) => c.tecnica == tecnicaFilter
  }

  /** The period filter's predicate: dated at or after the cutoff. */
  function DatedFrom(cutoff: int): Cast -> bool {
    (c: Cast) => c.data >= cutoff
  }

  /** Both filters at once, as a predicate. */
  function KeptBy(tecnicaFilter: string, periodo: Option<int>, now: int): Cast -> bool {
    (c: Cast) => Kept(c, tecnicaFilter, periodo, now)
  }

  function FilterByTecnica(casts: seq<Cast>, tecnicaFilter: string): seq<Cast> {
    if tecnicaFilter != "" then Filter(casts, TecnicaIs(tecnicaFilter)) else casts
  }

  function FilterByPeriod(casts: seq<Cast>, periodo: Option<int>, now: int): seq<Cast> {
    if PeriodActive(periodo) then Filter(casts, DatedFrom(now - periodo.value * DayMs))
    else casts
  }

  /** Applying the two filters one after the other is filtering once by `Kept`: every kept
      cast stays, with all its copies, in its original place. */
  lemma FiltersCompose(casts: seq<Cast>, tecnicaFilter: string, periodo: Option<int>, now: int)
    ensures FilterByPeriod(FilterByTecnica(casts, tecnicaFilter), periodo, now)
      == Filter(casts, KeptBy(tecnicaFilter, periodo, now))
  {
    if tecnicaFilter != "" && PeriodActive(periodo) {
      BothFiltersCompose(casts, tecnicaFilter, periodo, now);
    } else if tecnicaFilter != "" {
      TecnicaFilterAlone(casts, tecnicaFilter, periodo, now);
    } else if PeriodActive(periodo) {
      PeriodFilterAlone(casts, tecnicaFilter, periodo, now);
    } else {
      var kept := KeptBy(tecnicaFilter, periodo, now);
      forall c | c in casts ensures kept(c) {
      }
      FilterKeepsAll(casts, kept);
    }
  }

  lemma BothFiltersCompose(casts: seq<Cast>, tecnicaFilter: string, periodo: Option<int>, now: int)
    requires tecnicaFilter != "" && PeriodActive(periodo)
    ensures Filter(Filter(casts, TecnicaIs(tecnicaFilter)), DatedFrom(now - periodo.value * DayMs))
      == Filter(casts, KeptBy(tecnicaFilter, periodo, now))
  {
    var kept, byTecnica := KeptBy(tecnicaFilter, periodo, now), TecnicaIs(tecnicaFilter);
    var dated := DatedFrom(now - periodo.value * DayMs);
    forall c | c in casts ensures kept(c) == (byTecnica(c) && dated(c)) {
    }
    FilterFilter(casts, byTecnica, dated, kept);
  }

  lemma TecnicaFilterAlone(casts: seq<Cast>, tecnicaFilter: string, periodo: Option<int>, now: int)
    requires tecnicaFilter != "" && !PeriodActive(periodo)
    ensures Filter(casts, TecnicaIs(tecnicaFilter)) == Filter(casts, KeptBy(tecnicaFilter, periodo, now))
  {
    var kept, byTecnica := KeptBy(tecnicaFilter, periodo, now), TecnicaIs(tecnicaFilter);
    forall c | c in casts ensures byTecnica(c) == kept(c) {
    }
    FilterAgree(casts, byTecnica, kept);
  }

  lemma PeriodFilterAlone(casts: seq<Cast>, tecnicaFilter: string, periodo: Option<int>, now: int)
    requires tecnicaFilter == "" && PeriodActive(periodo)
    ensures Filter(casts, DatedFrom(now - periodo.value * DayMs)) == Filter(casts, KeptBy(tecnicaFilter, periodo, now))
  {
    var kept, dated := KeptBy(tecnicaFilter, periodo, now), DatedFrom(now - periodo.value * DayMs);
    forall c | c in casts ensures dated(c) == kept(c) {
    }
    FilterAgree(casts, dated, kept);
  }

  /** The list filterHistory displays: the casts kept by the technique and period filters,
      each with as many copies as the history holds, and no others; in the selected order. */
  function FilterHistory(casts: seq<Cast>, tecnicaFilter: string, periodo: Option<int>,
                         sortBy: SortOrder, now: int): (r: seq<Cast>)
    ensures multiset(r) == multiset(Filter(casts, KeptBy(tecnicaFilter, periodo, now)))
    ensures multiset(r) <= multiset(casts)
    ensures forall c :: c in r <==> c in casts && Kept(c, tecnicaFilter, periodo, now)
    ensures tecnicaFilter != "" ==> forall c :: c in r ==> c.tecnica == tecnicaFilter
    ensures OrderedAs(r, sortBy)
  {
    var byTecnica := FilterByTecnica(casts, tecnicaFilter);
    var byPeriod := FilterByPeriod(byTecnica, periodo, now);
    var r := Sort(byPeriod, sortBy);
    FiltersCompose(casts, tecnicaFilter, periodo, now);
    assert forall c :: c in r <==> c in byPeriod by {
      forall c ensures c in r <==> c in byPeriod {
        assert c in r <==> c in multiset(r);
        assert c in byPeriod <==> c in multiset(byPeriod);
      }
    }
    SortedByMeansOrderedAs(r, sortBy);
    r
  }
}
