/** The owner's poll editor: a question and a list of option texts that never has fewer
    than two entries, submitted with the blank options dropped. */
module PollManager {
  import opened Common
  import opened Interaction

  datatype Editor = Editor(question: string, options: seq<string>, loading: bool, error: string)

  /** The editor opens with two empty options. */
  const Initial := Editor("", ["", ""], false, "")

  const TooFewOptions := "Please provide at least 2 options"
  const CreateFailed := "Failed to create poll"

  /** `addOption`: one more empty option at the end. */
  function AddOption(options: seq<string>): (r: seq<string>)
    ensures |r| == |options| + 1 && r[..|options|] == options && r[|options|] == ""
  {
    options + [""]
  }

  /** `removeOption(index)`: drops the entry at `index` only while more than two remain;
      an index outside the list removes nothing. */
  function RemoveOption(options: seq<string>, index: int): (r: seq<string>)
    ensures |options| <= 2 ==> r == options
    ensures |options| > 2 && 0 <= index < |options| ==>
      |r| == |options| - 1
      && (forall i :: 0 <= i < index ==> r[i] == options[i])
      && (forall i :: index <= i < |r| ==> r[i] == options[i + 1])
    ensures !(0 <= index < |options|) ==> r == options
    ensures |options| >= 2 ==> |r| >= 2
  {
    if |options| > 2 && 0 <= index < |options| then options[..index] + options[index + 1..]
    else options
  }

  /** `handleOptionChange(index, value)`: the option list rendered offers only existing indices. */
  function ChangeOption(options: seq<string>, index: int, value: string): (r: seq<string>)
    requires 0 <= index < |options|
    ensures |r| == |options| && r[index] == value
    ensures forall i :: 0 <= i < |options| && i != index ==> r[i] == options[i]
  {
    options[index := value]
  }

  datatype Edit = Add | Remove(index: int) | ChangeAt(index: int, value: string)

  function ApplyEdit(options: seq<string>, e: Edit): seq<string> {
    match e
    case Add => AddOption(options)
    case Remove(i) => RemoveOption(options, i)
    case ChangeAt(i, v) => if 0 <= i < |options| then ChangeOption(options, i, v) else options
  }

  function ApplyEdits(options: seq<string>, edits: seq<Edit>): seq<string>
    decreases |edits|
  {
    if edits == [] then options else ApplyEdits(ApplyEdit(options, edits[0]), edits[1..])
  }

  /** Starting from the initial two options, no sequence of edits leaves fewer than two. */
  lemma {:induction false} AtLeastTwoOptions(options: seq<string>, edits: seq<Edit>)
    requires |options| >= 2
    ensures |ApplyEdits(options, edits)| >= 2
    decreases |edits|
  {
    if edits != [] {
      AtLeastTwoOptions(ApplyEdit(options, edits[0]), edits[1..]);
    }
  }

  predicate HasText(s: string) {
    !Blank(s)
  }

  /** The options a submit keeps: the non-blank ones, untrimmed, in their order. */
  function ValidOptions(options: seq<string>): (r: seq<string>)
    ensures forall i :: 0 <= i < |r| ==> !Blank(r[i])
    ensures forall o :: o in r <==> o in options && !Blank(o)
    ensures |r| <= |options|
  {
    Filter(HasText, options)
  }

  /** Keeping the non-blank options splits over any division of the list, so the kept
      options keep their relative order. */
  lemma ValidOptionsKeepOrder(a: seq<string>, b: seq<string>)
    ensures ValidOptions(a + b) == ValidOptions(a) + ValidOptions(b)
  {
    FilterConcat(HasText, a, b);
  }

  datatype Outcome = Outcome(editor: Editor, effects: Effects)

  /** `handleSubmit`. The poll service's `createPoll(data)` takes a single argument and
      is called as `createPoll(placeId, {question, options})`, so the request carries
      `placeId` alone. */
  function Submit(e: Editor, placeId: string, reply: Reply<()>): (r: Outcome)
    ensures !r.editor.loading
    ensures r.editor.question == e.question && r.editor.options == e.options
    ensures |ValidOptions(e.options)| < 2 ==>
      r.effects == NoEffects && r.editor.error == TooFewOptions
    ensures |ValidOptions(e.options)| >= 2 ==> r.effects.calls == [CreatePollCall(placeId)]
    ensures |ValidOptions(e.options)| >= 2 && reply.Ok? ==>
      r.effects.nav == Some(Nav("/owner", NoState)) && r.editor.error == ""
    ensures |ValidOptions(e.options)| >= 2 && reply.Err? ==>
      r.effects.nav.None? && r.editor.error == ErrorText(reply.message, CreateFailed)
  {
    var valid := ValidOptions(e.options);
    if |valid| < 2 then Outcome(e.(loading := false, error := TooFewOptions), NoEffects)
    else
      match reply
      case Ok(_) => Outcome(e.(loading := false, error := ""), Effects([CreatePollCall(placeId)], Some(Nav("/owner", NoState))))
      case Err(m) => Outcome(e.(loading := false, error := ErrorText(m, CreateFailed)), Effects([CreatePollCall(placeId)], None))
  }

  /** The fresh editor's two empty options are rejected without a request. */
  lemma InitialSubmitRejected(placeId: string, reply: Reply<()>)
    ensures Submit(Initial, placeId, reply).effects == NoEffects
  {
    assert ValidOptions(Initial.options) == [];
  }

  /** Whatever question and options were entered, an accepted submit sends the same request. */
  lemma RequestIgnoresForm(e1: Editor, e2: Editor, placeId: string, reply: Reply<()>)
    requires |ValidOptions(e1.options)| >= 2 && |ValidOptions(e2.options)| >= 2
    ensures Submit(e1, placeId, reply).effects == Submit(e2, placeId, reply).effects
  {
  }
}
