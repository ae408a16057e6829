/** The list view's event reducer: key presses act on the selected pull
    request, completion messages settle the tracker and set a status message.
    Step states the whole transition as a function; the class ListView
    performs it in place. */
module ListViews {
  import opened PullRequests
  import opened Tracker

  /** The key bindings of the list view, in the order the key switch tests them. */
  datatype Action =
    | MergeRebase | MergeDefault | MergeSquash | MergeDependabot
    | Rebase | Recreate | Browse | Close | View | CopyCheckout

  datatype MergeMethod = MethodRebase | MethodMerge | MethodSquash | MethodDependabot

  /** Incoming messages. `Other` stands for every message the switch has no
      case for (spinner ticks, status timers and the like). */
  datatype Msg =
    | ErrorMessage(err: string)
    | PullRequestMerged(pr: PullRequest)
    | PullRequestRebased(pr: PullRequest)
    | PullRequestRecreated(pr: PullRequest)
    | PullRequestOpenedInBrowser(pr: PullRequest)
    | WindowSize(width: int, height: int)
    | KeyPress(key: string)
    | Other

  /** Commands handed back to the event loop; the background work behind
      each is outside the model. */
  datatype Cmd =
    | StartSpinner
    | MergeCmd(pr: PullRequest, mergeMethod: MergeMethod)
    | RebaseCmd(pr: PullRequest)
    | RecreateCmd(pr: PullRequest)
    | BrowseCmd(pr: PullRequest)
    | CloseCmd(pr: PullRequest)
    | ViewDetailsCmd(pr: PullRequest)
    | CopyCheckoutCmd(pr: PullRequest)
    | StatusMessage(text: string)

  /** The key string bound to each action. */
  function BindingKey(a: Action): string {
    match a
    case MergeRebase => "enter"
    case MergeDefault => "ctrl+m"
    case MergeSquash => "M"
    case MergeDependabot => "alt+m"
    case Rebase => "r"
    case Recreate => "R"
    case Browse => "o"
    case Close => "C"
    case View => "v"
    case CopyCheckout => "c"
  }

  /** The action of a key press: the first binding that matches, in switch order. */
  function ActionFor(key: string): (r: Option<Action>)
    ensures r.Some? ==> BindingKey(r.value) == key
  {
    if key == BindingKey(MergeRebase) then Some(MergeRebase)
    else if key == BindingKey(MergeDefault) then Some(MergeDefault)
    else if key == BindingKey(MergeSquash) then Some(MergeSquash)
    else if key == BindingKey(MergeDependabot) then Some(MergeDependabot)
    else if key == BindingKey(Rebase) then Some(Rebase)
    else if key == BindingKey(Recreate) then Some(Recreate)
    else if key == BindingKey(Browse) then Some(Browse)
    else if key == BindingKey(Close) then Some(Close)
    else if key == BindingKey(View) then Some(View)
    else if key == BindingKey(CopyCheckout) then Some(CopyCheckout)
    else None
  }

  /** The bindings are distinct, so first-match dispatch picks exactly the
      action bound to the key, and an unbound key picks none. */
  lemma ActionForIsBinding(key: string, a: Action)
    ensures ActionFor(key) == Some(a) <==> key == BindingKey(a)
    ensures ActionFor(key).None? <==> forall b: Action :: key != BindingKey(b)
  {
  }

  predicate IsMerge(a: Action) {
    a.MergeRebase? || a.MergeDefault? || a.MergeSquash? || a.MergeDependabot?
  }

  function MergeMethodOf(a: Action): MergeMethod
    requires IsMerge(a)
  {
    match a
    case MergeRebase => MethodRebase
    case MergeDefault => MethodMerge
    case MergeSquash => MethodSquash
    case MergeDependabot => MethodDependabot
  }

  /** The abstract state of the view: the visible list, the cursor, the
      tracker's map, whether the spinner shows, and the status message. */
  datatype ListState = ListState(
    items: seq<PullRequest>,
    index: int,
    inProgress: map<string, int>,
    spinning: bool,
    status: string)

  datatype Outcome = Outcome(next: ListState, cmds: seq<Cmd>)

  /** The selected pull request, if the cursor is on one. */
  function Selected(items: seq<PullRequest>, index: int): (r: Option<PullRequest>)
    ensures r.Some? <==> 0 <= index < |items|
    ensures r.Some? ==> r.value == items[index]
  {
    if 0 <= index < |items| then Some(items[index]) else None
  }

  /** The list with the element at `i` removed; out of range it is unchanged. */
  function RemoveAt(items: seq<PullRequest>, i: int): (r: seq<PullRequest>)
    ensures 0 <= i < |items| ==>
              && |r| == |items| - 1
              && (forall j :: 0 <= j < i ==> r[j] == items[j])
              && (forall j :: i <= j < |r| ==> r[j] == items[j + 1])
    ensures !(0 <= i < |items|) ==> r == items
  {
    if 0 <= i < |items| then items[..i] + items[i + 1..] else items
  }

  /** Removing one element takes exactly one occurrence of it out of the list. */
  lemma RemoveAtMultiset(items: seq<PullRequest>, i: int)
    requires 0 <= i < |items|
    ensures multiset(RemoveAt(items, i)) + multiset{items[i]} == multiset(items)
  {
    assert items == items[..i] + [items[i]] + items[i + 1..];
  }

  /** A completion of merge, rebase or recreate: the spinner stops, the
      tracker entry is settled and the status names the pull request. */
  function Completed(s: ListState, pr: PullRequest, verb: string): Outcome {
    var text := verb + pr.url;
    Outcome(
      s.(inProgress := MarkedDone(s.inProgress, KeyOf(pr)), spinning := false, status := text),
      [StatusMessage(text)])
  }

  /** A bound key with the cursor on `pr`. */
  function Dispatch(s: ListState, a: Action, pr: PullRequest): Outcome {
    match a
    case MergeRebase => StartMerge(s, pr, MethodRebase)
    case MergeDefault => StartMerge(s, pr, MethodMerge)
    case MergeSquash => StartMerge(s, pr, MethodSquash)
    case MergeDependabot => StartMerge(s, pr, MethodDependabot)
    case Rebase =>
      Outcome(s.(inProgress := MarkedInProgress(s.inProgress, KeyOf(pr)), spinning := true),
              [StartSpinner, RebaseCmd(pr)])
    case Recreate =>
      Outcome(s.(inProgress := MarkedInProgress(s.inProgress, KeyOf(pr)), spinning := true),
              [StartSpinner, RecreateCmd(pr)])
    case Browse => Outcome(s, [BrowseCmd(pr)])
    case Close => Outcome(s.(items := RemoveAt(s.items, s.index)), [CloseCmd(pr)])
    case View => Outcome(s, [ViewDetailsCmd(pr)])
    case CopyCheckout => Outcome(s, [CopyCheckoutCmd(pr)])
  }

  /** A merge key: track, remove optimistically, start the spinner, merge. */
  function StartMerge(s: ListState, pr: PullRequest, mergeMethod: MergeMethod): Outcome {
    Outcome(
      s.(inProgress := MarkedInProgress(s.inProgress, KeyOf(pr)),
         items := RemoveAt(s.items, s.index),
         spinning := true),
      [StartSpinner, MergeCmd(pr, mergeMethod)])
  }

  /** One call of Update. */
  function Step(s: ListState, msg: Msg): Outcome {
    match msg
    case ErrorMessage(err) =>
      Outcome(s.(spinning := false, status := err), [StatusMessage(err)])
    case PullRequestMerged(pr) => Completed(s, pr, "Approved ")
    case PullRequestRebased(pr) => Completed(s, pr, "Rebased ")
    case PullRequestRecreated(pr) => Completed(s, pr, "Recreated ")
    case PullRequestOpenedInBrowser(pr) =>
      var text := "Opened " + pr.url;
      Outcome(s.(spinning := false, status := text), [StatusMessage(text)])
    case WindowSize(_, _) => Outcome(s, [])
    case KeyPress(key) =>
      (match ActionFor(key)
       case None => Outcome(s, [])
       case Some(a) =>
         (match Selected(s.items, s.index)
          case None => Outcome(s, [])
          case Some(pr) => Dispatch(s, a, pr)))
    case Other => Outcome(s, [])
  }

  // ----- Properties of the reducer -----

  /** A merge key on a selected pull request increments its tracker entry,
      removes exactly the selected element (the others keep their order),
      starts the spinner and emits one merge command with the matching method. */
  lemma MergeKeyEffect(s: ListState, a: Action)
    requires IsMerge(a) && 0 <= s.index < |s.items|
    ensures var pr := s.items[s.index];
      var o := Step(s, KeyPress(BindingKey(a)));
      && o.next.inProgress == MarkedInProgress(s.inProgress, KeyOf(pr))
      && Count(o.next.inProgress, KeyOf(pr)) == Count(s.inProgress, KeyOf(pr)) + 1
      && o.next.items == s.items[..s.index] + s.items[s.index + 1..]
      && multiset(o.next.items) + multiset{pr} == multiset(s.items)
      && o.next.spinning && o.next.status == s.status && o.next.index == s.index
      && o.cmds == [StartSpinner, MergeCmd(pr, MergeMethodOf(a))]
  {
    ActionForIsBinding(BindingKey(a), a);
    RemoveAtMultiset(s.items, s.index);
  }

  /** Rebase and recreate keys increment the tracker and emit one command,
      leaving the list as it was. */
  lemma RebaseRecreateKeyEffect(s: ListState, a: Action)
    requires (a.Rebase? || a.Recreate?) && 0 <= s.index < |s.items|
    ensures var pr := s.items[s.index];
      var o := Step(s, KeyPress(BindingKey(a)));
      && o.next.inProgress == MarkedInProgress(s.inProgress, KeyOf(pr))
      && o.next.items == s.items && o.next.spinning && o.next.status == s.status
      && o.next.index == s.index
      && o.cmds == [StartSpinner, if a.Rebase? then RebaseCmd(pr) else RecreateCmd(pr)]
  {
    ActionForIsBinding(BindingKey(a), a);
  }

  /** Close removes the selected element and emits a close command without
      touching the tracker. */
  lemma CloseKeyEffect(s: ListState)
    requires 0 <= s.index < |s.items|
    ensures var pr := s.items[s.index];
      var o := Step(s, KeyPress(BindingKey(Close)));
      && o.next.inProgress == s.inProgress
      && o.next.items == s.items[..s.index] + s.items[s.index + 1..]
      && multiset(o.next.items) + multiset{pr} == multiset(s.items)
      && o.next.spinning == s.spinning && o.next.status == s.status
      && o.next.index == s.index
      && o.cmds == [CloseCmd(pr)]
  {
    RemoveAtMultiset(s.items, s.index);
  }

  /** Browse, view and copy change nothing and emit their one command. */
  lemma PassiveKeyEffect(s: ListState, a: Action)
    requires (a.Browse? || a.View? || a.CopyCheckout?) && 0 <= s.index < |s.items|
    ensures var pr := s.items[s.index];
      var o := Step(s, KeyPress(BindingKey(a)));
      && o.next == s
      && o.cmds == [match a
                    case Browse => BrowseCmd(pr)
                    case View => ViewDetailsCmd(pr)
                    case _ => CopyCheckoutCmd(pr)]
  {
    ActionForIsBinding(BindingKey(a), a);
  }

  /** Without a selected pull request (an empty list, say) no key does
      anything; neither does a key without a binding. */
  lemma KeyWithoutSelectionIsNoOp(s: ListState, key: string)
    requires !(0 <= s.index < |s.items|) || ActionFor(key).None?
    ensures Step(s, KeyPress(key)) == Outcome(s, [])
  {
  }

  /** Merge, rebase and recreate completions settle the tracker entry of their
      pull request, whether or not it is still listed, and set the status. */
  lemma CompletionEffect(s: ListState, msg: Msg)
    requires msg.PullRequestMerged? || msg.PullRequestRebased? || msg.PullRequestRecreated?
    ensures var o := Step(s, msg);
      var verb := if msg.PullRequestMerged? then "Approved "
                  else if msg.PullRequestRebased? then "Rebased " else "Recreated ";
      && o.next.inProgress == MarkedDone(s.inProgress, KeyOf(msg.pr))
      && o.next.items == s.items && !o.next.spinning && o.next.index == s.index
      && o.next.status == verb + msg.pr.url
      && o.cmds == [StatusMessage(verb + msg.pr.url)]
  {
  }

  /** An error and a browser completion leave the tracker as it is, so an error
      after a merge leaves that merge's entry in place. */
  lemma ErrorAndOpenedKeepTracker(s: ListState, msg: Msg)
    requires msg.ErrorMessage? || msg.PullRequestOpenedInBrowser?
    ensures var o := Step(s, msg);
      var text := if msg.ErrorMessage? then msg.err else "Opened " + msg.pr.url;
      && o.next.inProgress == s.inProgress && o.next.items == s.items && !o.next.spinning
      && o.next.index == s.index && o.next.status == text
      && o.cmds == [StatusMessage(text)]
  {
  }

  /** No message other than a key press changes the list, and the resize
      message and unhandled messages change nothing at all. */
  lemma OnlyKeysChangeList(s: ListState, msg: Msg)
    requires !msg.KeyPress?
    ensures Step(s, msg).next.items == s.items
    ensures (msg.WindowSize? || msg.Other?) ==> Step(s, msg) == Outcome(s, [])
  {
  }

  /** A bound key keeps the tracker invariant and never adds to the list. */
  lemma DispatchInvariant(s: ListState, a: Action, pr: PullRequest)
    requires Positive(s.inProgress)
    ensures Positive(Dispatch(s, a, pr).next.inProgress)
    ensures multiset(Dispatch(s, a, pr).next.items) <= multiset(s.items)
    ensures Dispatch(s, a, pr).next.index == s.index
  {
    if 0 <= s.index < |s.items| {
      RemoveAtMultiset(s.items, s.index);
    }
  }

  /** Every step keeps the tracker invariant and never adds to the list. */
  lemma StepInvariant(s: ListState, msg: Msg)
    requires Positive(s.inProgress)
    ensures Positive(Step(s, msg).next.inProgress)
    ensures multiset(Step(s, msg).next.items) <= multiset(s.items)
    ensures Step(s, msg).next.index == s.index
  {
    if msg.KeyPress? && ActionFor(msg.key).Some? && 0 <= s.index < |s.items| {
      DispatchInvariant(s, ActionFor(msg.key).value, s.items[s.index]);
    }
  }

  /** A merge followed by its success completion returns the tracker to where
      it was; the pull request stays removed. */
  lemma MergeThenMerged(s: ListState, a: Action)
    requires IsMerge(a) && 0 <= s.index < |s.items| && Positive(s.inProgress)
    ensures var pr := s.items[s.index];
      var o := Step(Step(s, KeyPress(BindingKey(a))).next, PullRequestMerged(pr));
      && o.next.inProgress == s.inProgress
      && o.next.items == RemoveAt(s.items, s.index)
  {
    MergeKeyEffect(s, a);
    DoneUndoesInProgress(s.inProgress, KeyOf(s.items[s.index]));
  }

  /** A merge followed by an error leaves its pull request marked in progress:
      the error message carries no pull request, so nothing settles the entry. */
  lemma MergeThenErrorKeepsEntry(s: ListState, a: Action, err: string)
    requires IsMerge(a) && 0 <= s.index < |s.items|
    ensures var pr := s.items[s.index];
      var o := Step(Step(s, KeyPress(BindingKey(a))).next, ErrorMessage(err));
      && Count(o.next.inProgress, KeyOf(pr)) == Count(s.inProgress, KeyOf(pr)) + 1
      && KeyOf(pr) in o.next.inProgress
  {
    MergeKeyEffect(s, a);
  }

  /** The list view. The tracker is a separate object, as the source's map is
      shared between copies of the view. */
  class ListView {
    var items: seq<PullRequest>
    var index: int
    const tracker: OperationTracker
    var spinning: bool
    var status: string

    ghost predicate Valid()
      reads this, tracker
    {
      tracker.Valid()
    }

    function State(): ListState
      reads this, tracker
    {
      ListState(items, index, tracker.inProgress, spinning, status)
    }

    /** newListView: the given pull requests, the cursor on the first, an
        empty tracker. */
    constructor (pullRequests: seq<PullRequest>)
      ensures Valid() && fresh(tracker)
      ensures State() == ListState(pullRequests, 0, map[], false, "")
    {
      items := pullRequests;
      index := 0;
      tracker := new OperationTracker();
      spinning := false;
      status := "";
    }

    method RemoveItem(i: int)
      modifies this
      ensures items == RemoveAt(old(items), i)
      ensures index == old(index) && spinning == old(spinning) && status == old(status)
    {
      if 0 <= i < |items| {
        items := items[..i] + items[i + 1..];
      }
    }

    method NewStatusMessage(text: string) returns (cmd: Cmd)
      modifies this
      ensures status == text && cmd == StatusMessage(text)
      ensures items == old(items) && index == old(index) && spinning == old(spinning)
    {
      status := text;
      cmd := StatusMessage(text);
    }

    /** Update: reduce one message into the next state and its commands. */
    method Update(msg: Msg) returns (cmds: seq<Cmd>)
      modifies this, tracker
      ensures State() == Step(old(State()), msg).next
      ensures cmds == Step(old(State()), msg).cmds
      ensures old(Valid()) ==> Valid()
    {
      ghost var s := State();
      cmds := [];
      match msg {
        case ErrorMessage(err) =>
          spinning := false;
          var cmd := NewStatusMessage(err);
          cmds := cmds + [cmd];
        case PullRequestMerged(pr) =>
          cmds := CompleteOperation(pr, "Approved ");
        case PullRequestRebased(pr) =>
          cmds := CompleteOperation(pr, "Rebased ");
        case PullRequestRecreated(pr) =>
          cmds := CompleteOperation(pr, "Recreated ");
        case PullRequestOpenedInBrowser(pr) =>
          spinning := false;
          var cmd := NewStatusMessage("Opened " + pr.url);
          cmds := cmds + [cmd];
        case WindowSize(_, _) =>
        case KeyPress(key) =>
          var action := ActionFor(key);
          var selected := Selected(items, index);
          if action.Some? && selected.Some? {
            cmds := DispatchSelected(action.value, selected.value);
          }
        case Other =>
      }
      if Positive(s.inProgress) {
        StepInvariant(s, msg);
      }
    }

    /** The completion of a merge, rebase or recreate of `pr`. */
    method CompleteOperation(pr: PullRequest, verb: string) returns (cmds: seq<Cmd>)
      modifies this, tracker
      ensures State() == Completed(old(State()), pr, verb).next
      ensures cmds == Completed(old(State()), pr, verb).cmds
    {
      spinning := false;
      tracker.MarkDone(pr.repository, pr.number);
      var cmd := NewStatusMessage(verb + pr.url);
      cmds := [cmd];
    }

    /** The key switch, with the cursor on `pr`. */
    method DispatchSelected(a: Action, pr: PullRequest) returns (cmds: seq<Cmd>)
      requires Selected(items, index) == Some(pr)
      modifies this, tracker
      ensures State() == Dispatch(old(State()), a, pr).next
      ensures cmds == Dispatch(old(State()), a, pr).cmds
    {
      match a {
        case MergeRebase => cmds := MergeSelected(pr, MethodRebase);
        case MergeDefault => cmds := MergeSelected(pr, MethodMerge);
        case MergeSquash => cmds := MergeSelected(pr, MethodSquash);
        case MergeDependabot => cmds := MergeSelected(pr, MethodDependabot);
        case Rebase =>
          tracker.MarkInProgress(pr.repository, pr.number);
          spinning := true;
          cmds := [StartSpinner, RebaseCmd(pr)];
        case Recreate =>
          tracker.MarkInProgress(pr.repository, pr.number);
          spinning := true;
          cmds := [StartSpinner, RecreateCmd(pr)];
        case Browse =>
          cmds := [BrowseCmd(pr)];
        case Close =>
          RemoveItem(index);
          cmds := [CloseCmd(pr)];
        case View =>
          cmds := [ViewDetailsCmd(pr)];
        case CopyCheckout =>
          cmds := [CopyCheckoutCmd(pr)];
      }
    }

    /** The body shared by the four merge keys, for the selected `pr`. */
    method MergeSelected(pr: PullRequest, mergeMethod: MergeMethod) returns (cmds: seq<Cmd>)
      requires Selected(items, index) == Some(pr)
      modifies this, tracker
      ensures State() == StartMerge(old(State()), pr, mergeMethod).next
      ensures cmds == StartMerge(old(State()), pr, mergeMethod).cmds
    {
      tracker.MarkInProgress(pr.repository, pr.number);
      RemoveItem(index);
      spinning := true;
      cmds := [StartSpinner, MergeCmd(pr, mergeMethod)];
    }
  }
}
