/** The state of the application and the operations that change it (app.js, class
    LongCastApp): the cast history, the profile, the active training session and the
    suggestion index. */
module App {
  import opened Options
  import opened Seqs
  import opened Records
  import opened History
  import opened Suggestions

  /** The JSON document exportData writes and importData reads back. A key that is missing or
      `null` (or, for the profile, any falsy value) is `None`. */
  datatype Backup = Backup(casts: Option<seq<Cast>>, profile: Option<Profile>, exportDate: string)

  /** exportData: the whole history, the profile (possibly `null`) and the export time. */
  function Export(casts: seq<Cast>, profile: Option<Profile>, exportDate: string): (b: Backup)
    ensures b.casts == Some(casts) && b.profile == profile
  {
    Backup(Some(casts), profile, exportDate)
  }

  /** `if (data.casts) this.casts = data.casts`: replaced when the backup has a history (an
      empty array is truthy, so an empty history replaces too), kept otherwise. */
  function ImportedCasts(current: seq<Cast>, b: Backup): (r: seq<Cast>)
    ensures b.casts.Some? ==> r == b.casts.value
    ensures b.casts.None? ==> r == current
  {
    b.casts.GetOr(current)
  }

  /** `if (data.profile) this.profile = data.profile`: a backup without a profile does not
      clear the current one. */
  function ImportedProfile(current: Option<Profile>, b: Backup): (r: Option<Profile>)
    ensures b.profile.Some? ==> r == b.profile
    ensures b.profile.None? ==> r == current
  {
    if b.profile.Some? then b.profile else current
  }

  /** Importing an export gives back the exported history, whatever the history was before;
      the exported profile comes back too, unless it was `null`, in which case the current
      profile stays. */
  lemma ExportImportRoundTrip(casts: seq<Cast>, profile: Option<Profile>, exportDate: string,
                              before: seq<Cast>, profileBefore: Option<Profile>)
    ensures ImportedCasts(before, Export(casts, profile, exportDate)) == casts
    ensures ImportedProfile(profileBefore, Export(casts, profile, exportDate))
      == if profile.Some? then profile else profileBefore
  {
  }

  /** How importData ends: the data replaced, the confirmation declined, or the file not
      readable as JSON (the error toast). */
  datatype ImportOutcome = Imported | Declined | Unreadable

  /** The session after addCastToSession: the weather fields overwritten with the latest
      values and the new cast appended; every other field as it was. */
  function WithCast(s: Session, c: SessionCast, vento: string, direzioneVento: string,
                    temperatura: Option<real>, umidita: Option<int>): (r: Session)
    ensures r.lanci == s.lanci + [c]
    ensures r.vento == vento && r.direzioneVento == direzioneVento
    ensures r.temperatura == temperatura && r.umidita == umidita
    ensures r.(lanci := s.lanci, vento := s.vento, direzioneVento := s.direzioneVento,
               temperatura := s.temperatura, umidita := s.umidita) == s
  {
    s.(vento := vento, direzioneVento := direzioneVento, temperatura := temperatura,
       umidita := umidita, lanci := s.lanci + [c])
  }

  /** The suggestion index after startSession: the five values of the form, each recorded in
      its own list. */
  function SessionSuggestions(m: Index, f: SessionForm): (r: Index)
    ensures r.Get(PesoPiombo) == Added(m.Get(PesoPiombo), Some(f.pesoPiombo))
    ensures r.Get(Tecniche) == Added(m.Get(Tecniche), Some(f.tecnica))
    ensures r.Get(CannaModello) == Added(m.Get(CannaModello), Some(f.cannaModello))
    ensures r.Get(Vento) == Added(m.Get(Vento), Some(f.vento))
    ensures r.Get(DirezioneVento) == Added(m.Get(DirezioneVento), Some(f.direzioneVento))
    ensures IndexValid(m) ==> IndexValid(r)
  {
    var m1 := Suggest(m, PesoPiombo, Some(f.pesoPiombo));
    var m2 := Suggest(m1, Tecniche, Some(f.tecnica));
    var m3 := Suggest(m2, CannaModello, Some(f.cannaModello));
    var m4 := Suggest(m3, Vento, Some(f.vento));
    Suggest(m4, DirezioneVento, Some(f.direzioneVento))
  }

  /** The suggestion index after addCastToSession: the two wind values recorded. */
  function WeatherSuggestions(m: Index, vento: string, direzioneVento: string): (r: Index)
    ensures r.Get(Vento) == Added(m.Get(Vento), Some(vento))
    ensures r.Get(DirezioneVento) == Added(m.Get(DirezioneVento), Some(direzioneVento))
    ensures forall c :: c != Vento && c != DirezioneVento ==> r.Get(c) == m.Get(c)
    ensures IndexValid(m) ==> IndexValid(r)
  {
    Suggest(Suggest(m, Vento, Some(vento)), DirezioneVento, Some(direzioneVento))
  }

  /** Whether endSession goes ahead: a session is active, an empty one only after the extra
      confirmation, and the final confirmation is given. */
  predicate EndConfirmed(current: Option<Session>, confirmEmpty: bool, confirmEnd: bool) {
    current.Some? && (|current.value.lanci| > 0 || confirmEmpty) && confirmEnd
  }

  /** The `forEach` of endSession: pushes one history entry per session cast, in order. */
  method AppendSessionCasts(history: seq<Cast>, s: Session, ids: seq<real>) returns (r: seq<Cast>)
    requires |ids| == |s.lanci|
    ensures r == history + SessionEntries(s, s.lanci, ids)
  {
    r := history;
    var i := 0;
    while i < |s.lanci|
      invariant 0 <= i <= |s.lanci|
      invariant r == history + SessionEntries(s, s.lanci[..i], ids[..i])
    {
      SessionEntriesPrefix(s, s.lanci, ids, i);
      r := r + [HistoryEntry(s, s.lanci[i], ids[i])];
      i := i + 1;
    }
    assert s.lanci[..i] == s.lanci && ids[..i] == ids;
  }

  class LongCastApp {
    /** `this.casts`: the history. */
    var casts: seq<Cast>
    /** `this.profile`, `null` being `None`. */
    var profile: Option<Profile>
    /** `this.currentSession`: at most one active session. */
    var currentSession: Option<Session>
    /** `this.suggestions`. */
    var suggestions: Index

    /** Every suggestion list is duplicate-free and holds trimmed, non-blank values. */
    ghost predicate Valid()
      reads this
    {
      IndexValid(suggestions)
    }

    /** The fields as the constructor sets them, before `init` loads the stored data. */
    constructor()
      ensures Valid()
      ensures casts == [] && profile == None && currentSession == None
      ensures suggestions == EmptyIndex()
    {
      casts := [];
      profile := None;
      currentSession := None;
      suggestions := EmptyIndex();
    }

    /** addSuggestion(type, value): only the list of `c` changes, as Added says. */
    method AddSuggestion(c: Category, value: Option<string>)
      requires Valid()
      modifies this
      ensures Valid()
      ensures suggestions == Suggest(old(suggestions), c, value)
      ensures casts == old(casts) && profile == old(profile) && currentSession == old(currentSession)
    {
      var m := Suggest(suggestions, c, value);
      assert IndexValid(m);
      suggestions := m;
    }

    /** startSession with session id `id` (`Date.now()`) and the values of the form. Any session
        already active is replaced: nothing guards against it. */
    method StartSession(id: int, f: SessionForm)
      requires Valid()
      modifies this
      ensures Valid()
      ensures currentSession == Some(NewSession(id, f))
      ensures suggestions == SessionSuggestions(old(suggestions), f)
      ensures casts == old(casts) && profile == old(profile)
    {
      currentSession := Some(NewSession(id, f));
      AddSuggestion(PesoPiombo, Some(f.pesoPiombo));
      AddSuggestion(Tecniche, Some(f.tecnica));
      AddSuggestion(CannaModello, Some(f.cannaModello));
      AddSuggestion(Vento, Some(f.vento));
      AddSuggestion(DirezioneVento, Some(f.direzioneVento));
    }

    /** addCastToSession with the distance and note typed in, the weather fields and the time
        `orario`: nothing happens without an active session; otherwise the weather of the
        session is overwritten, the wind values are recorded as suggestions and exactly one
        cast is appended. */
    method AddCastToSession(distanza: real, orario: int, note: string, vento: string,
                            direzioneVento: string, temperatura: Option<real>, umidita: Option<int>)
      requires Valid()
      modifies this
      ensures Valid()
      ensures old(currentSession).None? ==>
        currentSession == None && suggestions == old(suggestions)
      ensures old(currentSession).Some? ==>
        && currentSession == Some(WithCast(old(currentSession).value, SessionCast(distanza, orario, note),
                                           vento, direzioneVento, temperatura, umidita))
        && suggestions == WeatherSuggestions(old(suggestions), vento, direzioneVento)
      ensures casts == old(casts) && profile == old(profile)
    {
      if currentSession.None? {
        return;
      }
      var s := currentSession.value;
      s := s.(vento := vento, direzioneVento := direzioneVento, temperatura := temperatura,
               umidita := umidita);
      currentSession := Some(s);
      AddSuggestion(Vento, Some(vento));
      AddSuggestion(DirezioneVento, Some(direzioneVento));
      currentSession := Some(s.(lanci := s.lanci + [SessionCast(distanza, orario, note)]));
    }

    /** deleteSessionCast(index) with the answer to its confirmation: when confirmed, the cast at
        `index` (as `splice(index, 1)` reads it) is removed and the others keep their order;
        otherwise, or without a session, nothing changes. */
    method DeleteSessionCast(index: int, confirmed: bool)
      requires Valid()
      modifies this
      ensures Valid()
      ensures old(currentSession).Some? && confirmed ==>
        currentSession == Some(old(currentSession).value.(lanci := SpliceOne(old(currentSession).value.lanci, index)))
      ensures old(currentSession).None? || !confirmed ==> currentSession == old(currentSession)
      ensures casts == old(casts) && profile == old(profile) && suggestions == old(suggestions)
    {
      if currentSession.None? {
        return;
      }
      if confirmed {
        var s := currentSession.value;
        currentSession := Some(s.(lanci := SpliceOne(s.lanci, index)));
      }
    }

    /** endSession with the answers to its confirmations (`confirmEmpty` is asked only of an
        empty session) and the fresh ids (`Date.now() + Math.random()`) of the new entries.
        When it goes ahead, one history entry per session cast is appended in session order,
        carrying the cast's distance, time and note and the session's metadata and id, and the
        session is closed; otherwise nothing changes. */
    method EndSession(confirmEmpty: bool, confirmEnd: bool, ids: seq<real>)
      requires currentSession.Some? ==> |ids| == |currentSession.value.lanci|
      requires Valid()
      modifies this
      ensures Valid()
      ensures EndConfirmed(old(currentSession), confirmEmpty, confirmEnd) ==>
        && casts == old(casts) + SessionEntries(old(currentSession).value, old(currentSession).value.lanci, ids)
        && currentSession == None
      ensures !EndConfirmed(old(currentSession), confirmEmpty, confirmEnd) ==>
        casts == old(casts) && currentSession == old(currentSession)
      ensures profile == old(profile) && suggestions == old(suggestions)
    {
      if currentSession.None? {
        return;
      }
      var s := currentSession.value;
      if |s.lanci| == 0 && !confirmEmpty {
        return;
      }
      if !confirmEnd {
        return;
      }
      casts := AppendSessionCasts(casts, s, ids);
      currentSession := None;
    }

    /** deleteCast(id) with the answer to its confirmation: when confirmed, exactly the entries
        with that id go, the others keeping their order. */
    method DeleteCast(id: real, confirmed: bool)
      requires Valid()
      modifies this
      ensures Valid()
      ensures casts == if confirmed then DeleteById(old(casts), id) else old(casts)
      ensures profile == old(profile) && currentSession == old(currentSession)
      ensures suggestions == old(suggestions)
    {
      if confirmed {
        casts := DeleteById(casts, id);
      }
    }

    /** importData with the parsed file (`None` when it is not valid JSON) and the answer to its
        confirmation: the history and the profile are replaced by those the file has; the
        session and the suggestions are never touched. */
    method ImportData(data: Option<Backup>, confirmed: bool) returns (outcome: ImportOutcome)
      requires Valid()
      modifies this
      ensures Valid()
      ensures outcome == (if data.None? then Unreadable else if confirmed then Imported else Declined)
      ensures outcome == Imported ==>
        casts == ImportedCasts(old(casts), data.value) && profile == ImportedProfile(old(profile), data.value)
      ensures outcome != Imported ==> casts == old(casts) && profile == old(profile)
      ensures currentSession == old(currentSession) && suggestions == old(suggestions)
    {
      if data.None? {
        return Unreadable;
      }
      if !confirmed {
        return Declined;
      }
      var b := data.value;
      if b.casts.Some? {
        casts := b.casts.value;
      }
      if b.profile.Some? {
        profile := b.profile;
      }
      outcome := Imported;
    }

    /** clearAllData with the answers to its two confirmations: only when both are given, the
        history, the profile, the session and every suggestion list are emptied. */
    method ClearAllData(confirmFirst: bool, confirmSecond: bool)
      requires Valid()
      modifies this
      ensures Valid()
      ensures confirmFirst && confirmSecond ==>
        casts == [] && profile == None && currentSession == None && suggestions == EmptyIndex()
      ensures !(confirmFirst && confirmSecond) ==>
        casts == old(casts) && profile == old(profile) && currentSession == old(currentSession)
        && suggestions == old(suggestions)
    {
      if confirmFirst && confirmSecond {
        casts := [];
        profile := None;
        currentSession := None;
        suggestions := EmptyIndex();
      }
    }
  }
}
