/** The records of app.js: the casts of the history, the active session with its casts, and
    the profile. Times are milliseconds since the epoch (what `new Date(...)` compares);
    free-text fields are strings; numbers parsed from optional form fields are `Option`s,
    `None` standing for the `null` the code stores when the field is empty. */
module Records {
  import opened Options

  /** One cast of the active session, `{distanza, orario, note}`. */
  datatype SessionCast = SessionCast(distanza: real, orario: int, note: string)

  /** `this.currentSession`. */
  datatype Session = Session(
    id: int,
    dataInizio: string,
    luogo: string,
    pesoPiombo: string,
    tecnica: string,
    cannaModello: string,
    cannaLunghezza: Option<real>,
    cannaGrammatura: string,
    mulinello: string,
    filo: string,
    vento: string,
    direzioneVento: string,
    temperatura: Option<real>,
    umidita: Option<int>,
    note: string,
    lanci: seq<SessionCast>)

  /** The values the start-session form supplies. */
  datatype SessionForm = SessionForm(
    dataInizio: string,
    luogo: string,
    pesoPiombo: string,
    tecnica: string,
    cannaModello: string,
    cannaLunghezza: Option<real>,
    cannaGrammatura: string,
    mulinello: string,
    filo: string,
    vento: string,
    direzioneVento: string,
    temperatura: Option<real>,
    umidita: Option<int>,
    note: string)

  /** One entry of `this.casts`, the history. Entries written by endSession carry the id of
      their session; imported ones may not. */
  datatype Cast = Cast(
    id: real,
    distanza: real,
    data: int,
    pesoPiombo: string,
    tecnica: string,
    cannaModello: string,
    cannaLunghezza: Option<real>,
    cannaGrammatura: string,
    mulinello: string,
    filo: string,
    vento: string,
    direzioneVento: string,
    temperatura: Option<real>,
    umidita: Option<int>,
    luogo: string,
    note: string,
    sessionId: Option<int>)

  /** `this.profile`: only stored, imported and cleared by the core. */
  datatype Profile = Profile(
    nome: string,
    cognome: string,
    eta: Option<int>,
    sesso: string,
    altezza: Option<int>,
    peso: Option<real>,
    livello: string,
    obiettivo: Option<real>,
    campoAllenamento: string)

  /** The session startSession builds from the form: given id, no casts yet. */
  function NewSession(id: int, f: SessionForm): (s: Session)
    ensures s.id == id && s.lanci == []
  {
    Session(id, f.dataInizio, f.luogo, f.pesoPiombo, f.tecnica, f.cannaModello, f.cannaLunghezza,
            f.cannaGrammatura, f.mulinello, f.filo, f.vento, f.direzioneVento, f.temperatura,
            f.umidita, f.note, [])
  }

  /** `c` carries the equipment, weather and location of session `s`, and its id. */
  predicate FromSession(c: Cast, s: Session) {
    && c.pesoPiombo == s.pesoPiombo && c.tecnica == s.tecnica
    && c.cannaModello == s.cannaModello && c.cannaLunghezza == s.cannaLunghezza
    && c.cannaGrammatura == s.cannaGrammatura && c.mulinello == s.mulinello && c.filo == s.filo
    && c.vento == s.vento && c.direzioneVento == s.direzioneVento
    && c.temperatura == s.temperatura && c.umidita == s.umidita
    && c.luogo == s.luogo && c.sessionId == Some(s.id)
  }

  /** The history entry endSession writes for session cast `l` of session `s`.
      `note: lancio.note || ''` is `lancio.note` here, a note being a string already. */
  function HistoryEntry(s: Session, l: SessionCast, id: real): Cast {
    Cast(id, l.distanza, l.orario, s.pesoPiombo, s.tecnica, s.cannaModello, s.cannaLunghezza,
         s.cannaGrammatura, s.mulinello, s.filo, s.vento, s.direzioneVento, s.temperatura,
         s.umidita, s.luogo, l.note, Some(s.id))
  }

  /** The entries endSession appends for `lanci`, in order: one per cast, built from that
      cast, the session and the fresh id given for it. */
  function SessionEntries(s: Session, lanci: seq<SessionCast>, ids: seq<real>): (r: seq<Cast>)
    requires |ids| == |lanci|
    ensures |r| == |lanci|
    ensures forall k :: 0 <= k < |r| ==> r[k] == HistoryEntry(s, lanci[k], ids[k])
  {
    if lanci == [] then []
    else [HistoryEntry(s, lanci[0], ids[0])] + SessionEntries(s, lanci[1..], ids[1..])
  }

  /** Each entry has the distance, time and note of its session cast, the id given for it, and
      the equipment, weather, location and id of the session. */
  lemma SessionEntriesCarrySession(s: Session, lanci: seq<SessionCast>, ids: seq<real>)
    requires |ids| == |lanci|
    ensures var r := SessionEntries(s, lanci, ids);
      forall k :: 0 <= k < |r| ==>
        && r[k].id == ids[k] && r[k].distanza == lanci[k].distanza
        && r[k].data == lanci[k].orario && r[k].note == lanci[k].note
        && FromSession(r[k], s)
  {
  }

  /** Flattening one cast more appends one entry more. */
  lemma {:induction false} SessionEntriesSnoc(s: Session, lanci: seq<SessionCast>, ids: seq<real>, l: SessionCast, id: real)
    requires |ids| == |lanci|
    ensures SessionEntries(s, lanci + [l], ids + [id]) == SessionEntries(s, lanci, ids) + [HistoryEntry(s, l, id)]
  {
    var left := SessionEntries(s, lanci + [l], ids + [id]);
    var right := SessionEntries(s, lanci, ids) + [HistoryEntry(s, l, id)];
    assert |left| == |right|;
    forall k | 0 <= k < |left| ensures left[k] == right[k] {
      if k < |lanci| {
        assert (lanci + [l])[k] == lanci[k];
        assert (ids + [id])[k] == ids[k];
      }
    }
  }

  /** Flattening a prefix one cast longer appends that cast's entry. */
  lemma SessionEntriesPrefix(s: Session, lanci: seq<SessionCast>, ids: seq<real>, i: nat)
    requires |ids| == |lanci| && i < |lanci|
    ensures SessionEntries(s, lanci[..i + 1], ids[..i + 1])
      == SessionEntries(s, lanci[..i], ids[..i]) + [HistoryEntry(s, lanci[i], ids[i])]
  {
    assert lanci[..i + 1] == lanci[..i] + [lanci[i]];
    assert ids[..i + 1] == ids[..i] + [ids[i]];
    SessionEntriesSnoc(s, lanci[..i], ids[..i], lanci[i], ids[i]);
  }
}
