/** The two append-only panels every demo page fills while a run goes on: the log and the
    narrator. Their texts are fixed display strings and are not part of the model; an entry
    keeps what the pages branch on or show as a category. */
module Journal {

  datatype Option<T> = None | Some(value: T)

  /** Severity of a log line (the union of the levels the four pages use). */
  datatype Level = Info | Success | Warn | Error | Critical

  /** A log line; `tx` is the transaction tag the isolation page attaches to some lines. */
  datatype LogEntry = LogEntry(level: Level, tx: Option<string>)

  /** The display category of a narrator message. */
  datatype Kind = InfoKind | SuccessKind | WarningKind | ErrorKind

  /** A narrator message: the index of the script step that produced it and its category. */
  datatype Narration = Narration(stepIndex: nat, kind: Kind)

  /** The position of the first narrator message produced by step `stepIndex`, if any: the
      message the replay of a step looks up. */
  function FindStep(messages: seq<Narration>, stepIndex: nat): (r: Option<nat>)
    ensures r.Some? ==> r.value < |messages| && messages[r.value].stepIndex == stepIndex
    ensures r.Some? ==> forall j :: 0 <= j < r.value ==> messages[j].stepIndex != stepIndex
    ensures r.None? ==> forall j :: 0 <= j < |messages| ==> messages[j].stepIndex != stepIndex
  {
    if messages == [] then None
    else if messages[0].stepIndex == stepIndex then Some(0)
    else match FindStep(messages[1..], stepIndex)
      case None => None
      case Some(k) => Some(k + 1)
  }

  /** Appending a message of a step not yet narrated makes it that step's first message. */
  lemma {:induction false} FindAppended(messages: seq<Narration>, m: Narration)
    requires FindStep(messages, m.stepIndex).None?
    ensures FindStep(messages + [m], m.stepIndex) == Some(|messages|)
  {
    if messages != [] {
      assert (messages + [m])[1..] == messages[1..] + [m];
      FindAppended(messages[1..], m);
    }
  }
}
