/** The suggestion index: for each free-text field, the distinct values entered so far, in the
    order they were first entered (app.js, addSuggestion). */
module Suggestions {
  import opened Options
  import opened Seqs
  import opened Text

  /** The keys of `this.suggestions`. */
  datatype Category = Tecniche | PesoPiombo | Vento | DirezioneVento | CannaModello

  /** `this.suggestions`: one list per category. */
  datatype Index = Index(
    tecniche: seq<string>,
    pesoPiombo: seq<string>,
    vento: seq<string>,
    direzioneVento: seq<string>,
    cannaModello: seq<string>)
  {
    /** `this.suggestions[type]` */
    function Get(c: Category): seq<string> {
      match c
      case Tecniche => tecniche
      case PesoPiombo => pesoPiombo
      case Vento => vento
      case DirezioneVento => direzioneVento
      case CannaModello => cannaModello
    }

    /** The index with the list of `c` replaced, the other four kept. */
    function Put(c: Category, list: seq<string>): (r: Index)
      ensures r.Get(c) == list
      ensures forall d :: d != c ==> r.Get(d) == Get(d)
    {
      match c
      case Tecniche => this.(tecniche := list)
      case PesoPiombo => this.(pesoPiombo := list)
      case Vento => this.(vento := list)
      case DirezioneVento => this.(direzioneVento := list)
      case CannaModello => this.(cannaModello := list)
    }
  }

  /** An entry as addSuggestion stores it: already trimmed and not blank. */
  predicate Clean(v: string) {
    v != "" && Trim(v) == v
  }

  /** A list that addSuggestion can have built: duplicate-free, every entry clean. */
  predicate WellFormed(list: seq<string>) {
    NoDuplicates(list) && forall i :: 0 <= i < |list| ==> Clean(list[i])
  }

  /** Every list well formed. */
  predicate IndexValid(m: Index) {
    forall c: Category :: WellFormed(m.Get(c))
  }

  /** The index the constructor and clearAllData install: every list empty. */
  function EmptyIndex(): (m: Index)
    ensures IndexValid(m)
    ensures forall c: Category :: m.Get(c) == []
  {
    Index([], [], [], [], [])
  }

  /** The list `addSuggestion(type, value)` leaves behind. A missing (`null`), empty or blank
      value changes nothing; otherwise the trimmed value is appended unless already present. */
  function Added(list: seq<string>, value: Option<string>): (r: seq<string>)
    ensures |list| <= |r| <= |list| + 1 && r[..|list|] == list
    ensures value.None? || Trim(value.value) == "" ==> r == list
    ensures value.Some? && Trim(value.value) in list ==> r == list
    ensures value.Some? && Trim(value.value) != "" && Trim(value.value) !in list
      ==> r == list + [Trim(value.value)]
    ensures forall x :: x in r <==> x in list || (value.Some? && Trim(value.value) != "" && x == Trim(value.value))
    ensures WellFormed(list) ==> WellFormed(r)
  {
    match value
    case None => list
    case Some(v) =>
      if v == "" || Trim(v) == "" then list
      else if Trim(v) in list then list
      else
        TrimIdempotent(v);
        list + [Trim(v)]
  }

  /** Recording the same value twice has the effect of recording it once. */
  lemma AddedIdempotent(list: seq<string>, value: Option<string>)
    ensures Added(Added(list, value), value) == Added(list, value)
  {
  }

  /** A value already in a well-formed list, given again with any white space before it and
      any after it (a trailing space only, for instance), adds nothing. */
  lemma AddedIgnoresPadding(list: seq<string>, v: string, left: string, right: string)
    requires WellFormed(list) && v in list && AllSpace(left) && AllSpace(right)
    ensures Added(list, Some(left + v + right)) == list
  {
    var k :| 0 <= k < |list| && list[k] == v;
    assert Clean(list[k]);
    TrimPadded(left, v, right);
  }

  /** `this.suggestions` after addSuggestion(type, value): that one list changes. */
  function Suggest(m: Index, c: Category, value: Option<string>): (r: Index)
    ensures r.Get(c) == Added(m.Get(c), value)
    ensures forall d :: d != c ==> r.Get(d) == m.Get(d)
    ensures IndexValid(m) ==> IndexValid(r)
  {
    m.Put(c, Added(m.Get(c), value))
  }
}
