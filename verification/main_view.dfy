/**
 * The view state of the login window and the four operations the GUI host
 * calls on it: construction, the message handler, the redraw step and the
 * teardown. The host's widget tree is reduced to the path of the image it
 * shows, and the window's close request to a count of requests sent.
 */
module MainView {
  import opened Wrappers
  import opened QrCode
  import Workers

  /** An opaque stand-in for a thread's JoinHandle. */
  datatype HandleId = HandleId(id: nat)

  /**
   * The value of a MainViewState, plus two things the host keeps: how many
   * close requests were sent and which image the widget tree displays.
   */
  datatype ViewState = ViewState(
    refreshImageThreadHandle: Option<HandleId>,
    pollScanResultThreadHandle: Option<HandleId>,
    scanResult: bool,
    currentQrcodePath: string,
    needUpdateQrcode: bool,
    closeRequests: nat,
    displayedQrcodePath: string)

  /** The dirty-flag protocol: while the flag is clear the image shown is the current one. */
  predicate Consistent(s: ViewState) {
    !s.needUpdateQrcode ==> s.displayedQrcodePath == s.currentQrcodePath
  }

  /** Default::default, with the image the window template starts with. */
  function Initial(): (s: ViewState)
    ensures s.refreshImageThreadHandle == None && s.pollScanResultThreadHandle == None
    ensures !s.scanResult && s.needUpdateQrcode && s.closeRequests == 0
    ensures s.currentQrcodePath == "./img/qrcode0.png"
    ensures s.displayedQrcodePath == s.currentQrcodePath
    ensures Consistent(s)
  {
    ViewState(None, None, false, NewQrCodePath(0), true, 0, NewQrCodePath(0))
  }

  /** State::init: both workers are spawned and their handles stored. */
  function Started(s: ViewState, refresh: HandleId, poll: HandleId): (r: ViewState)
  {
    s.(refreshImageThreadHandle := Some(refresh), pollScanResultThreadHandle := Some(poll))
  }

  /** The handling of one message. */
  function Step(s: ViewState, m: Message): (r: ViewState)
  {
    match m
    case UpdatetQRCodeImage(p) => s.(currentQrcodePath := p, needUpdateQrcode := true)
    case ScanCodeFinished => s.(scanResult := true, closeRequests := s.closeRequests + 1)
  }

  /** The handling of a batch of messages, in order. */
  function Apply(s: ViewState, batch: seq<Message>): (r: ViewState)
    decreases |batch|
  {
    if batch == [] then s else Step(Apply(s, batch[..|batch| - 1]), batch[|batch| - 1])
  }

  /** State::update: a pending image is rebuilt from the current path and the flag cleared. */
  function Updated(s: ViewState): (r: ViewState)
    ensures !r.needUpdateQrcode
    ensures s.needUpdateQrcode ==> r.displayedQrcodePath == s.currentQrcodePath
    ensures !s.needUpdateQrcode ==> r == s
    ensures r.(needUpdateQrcode := s.needUpdateQrcode, displayedQrcodePath := s.displayedQrcodePath) == s
  {
    if s.needUpdateQrcode then
      s.(displayedQrcodePath := s.currentQrcodePath, needUpdateQrcode := false)
    else s
  }

  /** State::cleanup: both handles are taken. */
  function CleanedUp(s: ViewState): (r: ViewState)
    ensures r.refreshImageThreadHandle == None && r.pollScanResultThreadHandle == None
    ensures r.(refreshImageThreadHandle := s.refreshImageThreadHandle,
               pollScanResultThreadHandle := s.pollScanResultThreadHandle) == s
  {
    s.(refreshImageThreadHandle := None, pollScanResultThreadHandle := None)
  }

  /** The handles State::cleanup joins, refresher first. */
  function JoinedBy(s: ViewState): (r: seq<HandleId>)
  {
    ToSeq(s.refreshImageThreadHandle) + ToSeq(s.pollScanResultThreadHandle)
  }

  /**
   * After a batch, the current image is the payload of the batch's last
   * UpdatetQRCodeImage.
   */
  lemma {:induction false} ApplyLastUpdate(s: ViewState, batch: seq<Message>, j: nat)
    requires j < |batch| && batch[j].UpdatetQRCodeImage?
    requires forall k :: j < k < |batch| ==> !batch[k].UpdatetQRCodeImage?
    ensures Apply(s, batch).currentQrcodePath == batch[j].path
    decreases |batch|
  {
    if j < |batch| - 1 {
      ApplyLastUpdate(s, batch[..|batch| - 1], j);
    }
  }

  /** A batch with no UpdatetQRCodeImage leaves the current image as it was. */
  lemma {:induction false} ApplyWithoutUpdate(s: ViewState, batch: seq<Message>)
    requires forall k :: 0 <= k < |batch| ==> !batch[k].UpdatetQRCodeImage?
    ensures Apply(s, batch).currentQrcodePath == s.currentQrcodePath
    ensures Apply(s, batch).needUpdateQrcode == s.needUpdateQrcode
    decreases |batch|
  {
    if batch != [] {
      ApplyWithoutUpdate(s, batch[..|batch| - 1]);
    }
  }

  /**
   * What a batch does to the two flags: the dirty flag is set exactly when
   * the batch holds an image update or it was set already, and scan_result is
   * set exactly when the batch holds ScanCodeFinished or it was set already.
   */
  lemma {:induction false} ApplyFlags(s: ViewState, batch: seq<Message>)
    ensures Apply(s, batch).needUpdateQrcode <==>
      s.needUpdateQrcode || exists k :: 0 <= k < |batch| && batch[k].UpdatetQRCodeImage?
    ensures Apply(s, batch).scanResult <==>
      s.scanResult || exists k :: 0 <= k < |batch| && batch[k].ScanCodeFinished?
    decreases |batch|
  {
    if batch != [] {
      var init, last := batch[..|batch| - 1], batch[|batch| - 1];
      ApplyFlags(s, init);
      assert Apply(s, batch) == Step(Apply(s, init), last);
      assert forall k :: 0 <= k < |init| ==> init[k] == batch[k];
    }
  }

  /**
   * What a batch does to the rest: one close request is sent per
   * ScanCodeFinished, and neither the handles nor the displayed image change.
   */
  lemma {:induction false} ApplyOthers(s: ViewState, batch: seq<Message>)
    ensures Apply(s, batch).closeRequests == s.closeRequests + multiset(batch)[ScanCodeFinished]
    ensures Apply(s, batch).refreshImageThreadHandle == s.refreshImageThreadHandle
    ensures Apply(s, batch).pollScanResultThreadHandle == s.pollScanResultThreadHandle
    ensures Apply(s, batch).displayedQrcodePath == s.displayedQrcodePath
    decreases |batch|
  {
    if batch != [] {
      var init, last := batch[..|batch| - 1], batch[|batch| - 1];
      ApplyOthers(s, init);
      assert Apply(s, batch) == Step(Apply(s, init), last);
      assert batch == init + [last];
      assert multiset(batch)[ScanCodeFinished]
          == multiset(init)[ScanCodeFinished] + (if last.ScanCodeFinished? then 1 else 0);
    }
  }

  /** Handling messages keeps the dirty-flag protocol. */
  lemma {:induction false} ApplyConsistent(s: ViewState, batch: seq<Message>)
    requires Consistent(s)
    ensures Consistent(Apply(s, batch))
    decreases |batch|
  {
    if batch != [] {
      ApplyConsistent(s, batch[..|batch| - 1]);
    }
  }

  /**
   * A second consecutive update changes nothing, and an update leaves the
   * current image on display.
   */
  lemma UpdateIdempotent(s: ViewState)
    ensures Updated(Updated(s)) == Updated(s)
    ensures Consistent(s) ==> Consistent(Updated(s)) && Updated(s).displayedQrcodePath == s.currentQrcodePath
  {
  }

  /** A second cleanup takes and joins nothing, and changes nothing. */
  lemma CleanupTakesOnce(s: ViewState)
    ensures CleanedUp(CleanedUp(s)) == CleanedUp(s)
    ensures JoinedBy(CleanedUp(s)) == []
    ensures |JoinedBy(s)| <= 2
    ensures Consistent(s) ==> Consistent(CleanedUp(s))
  {
  }

  /** The calls the GUI host makes on the view state. */
  datatype HostCall =
    | Init(refresh: HandleId, poll: HandleId)
    | Messages(batch: seq<Message>)
    | Update
    | Cleanup

  function Perform(s: ViewState, c: HostCall): (r: ViewState)
  {
    match c
    case Init(refresh, poll) => Started(s, refresh, poll)
    case Messages(batch) => Apply(s, batch)
    case Update => Updated(s)
    case Cleanup => CleanedUp(s)
  }

  function Run(s: ViewState, calls: seq<HostCall>): (r: ViewState)
    decreases |calls|
  {
    if calls == [] then s else Run(Perform(s, calls[0]), calls[1..])
  }

  /**
   * Over any sequence of host calls the dirty-flag protocol holds and
   * scan_result, once true, stays true (it is only ever stored true).
   */
  lemma {:induction false} RunInvariants(s: ViewState, calls: seq<HostCall>)
    requires Consistent(s)
    ensures Consistent(Run(s, calls))
    ensures s.scanResult ==> Run(s, calls).scanResult
    decreases |calls|
  {
    if calls != [] {
      match calls[0] {
        case Messages(batch) =>
          ApplyConsistent(s, batch);
          ApplyFlags(s, batch);
        case _ =>
      }
      RunInvariants(Perform(s, calls[0]), calls[1..]);
    }
  }

  /**
   * Delivering everything the refresher sent leaves the image of its last
   * counter current, with an image update pending, and scan_result as it was.
   */
  lemma RefresherDelivered(s: ViewState, flags: seq<bool>)
    ensures var n := Workers.FirstSet(flags);
      var r := Apply(s, Workers.RefreshEvents(flags));
      && r.currentQrcodePath == (if n == 0 then s.currentQrcodePath else NewQrCodePath(n))
      && r.needUpdateQrcode == (s.needUpdateQrcode || n > 0)
      && r.scanResult == s.scanResult
  {
    var events := Workers.RefreshEvents(flags);
    ApplyFlags(s, events);
    if |events| == 0 {
      ApplyWithoutUpdate(s, events);
    } else {
      ApplyLastUpdate(s, events, |events| - 1);
    }
  }

  /**
   * Delivering what the poller sent within `bound` iterations sets
   * scan_result and sends exactly one close request once it has run four
   * iterations, changes nothing before that, and never touches the image or
   * the dirty flag.
   */
  lemma PollerDelivered(s: ViewState, bound: nat)
    ensures var r := Apply(s, Workers.PollEvents(bound));
      && r.scanResult == (s.scanResult || bound >= 4)
      && r.closeRequests == s.closeRequests + (if bound >= 4 then 1 else 0)
      && r.currentQrcodePath == s.currentQrcodePath
      && r.needUpdateQrcode == s.needUpdateQrcode
  {
    Workers.PollEventsClosedForm(bound);
    assert [ScanCodeFinished][..0] == [];
  }

  /** The view state the GUI host owns; every method mirrors one function above. */
  class MainViewState {
    var refreshImageThreadHandle: Option<HandleId>
    var pollScanResultThreadHandle: Option<HandleId>
    var scanResult: bool
    var currentQrcodePath: string
    var needUpdateQrcode: bool
    var closeRequests: nat
    ghost var displayedQrcodePath: string

    ghost function Model(): (m: ViewState)
      reads this
    {
      ViewState(refreshImageThreadHandle, pollScanResultThreadHandle, scanResult,
                currentQrcodePath, needUpdateQrcode, closeRequests, displayedQrcodePath)
    }

    ghost predicate Valid()
      reads this
    {
      Consistent(Model())
    }

    constructor ()
      ensures Valid() && Model() == Initial()
    {
      refreshImageThreadHandle := None;
      pollScanResultThreadHandle := None;
      scanResult := false;
      currentQrcodePath := NewQrCodePath(0);
      needUpdateQrcode := true;
      closeRequests := 0;
      displayedQrcodePath := NewQrCodePath(0);
    }

    /** Stores the handles of the two freshly spawned workers. */
    method Init(refresh: HandleId, poll: HandleId)
      requires Valid()
      modifies this
      ensures Valid() && Model() == Started(old(Model()), refresh, poll)
    {
      refreshImageThreadHandle := Some(refresh);
      pollScanResultThreadHandle := Some(poll);
    }

    method Messages(batch: seq<Message>)
      requires Valid()
      modifies this
      ensures Valid() && Model() == Apply(old(Model()), batch)
    {
      for i := 0 to |batch|
        invariant Valid()
        invariant Model() == Apply(old(Model()), batch[..i])
      {
        match batch[i] {
          case UpdatetQRCodeImage(p) =>
            currentQrcodePath := p;
            needUpdateQrcode := true;
          case ScanCodeFinished =>
            scanResult := true;
            closeRequests := closeRequests + 1;
        }
        assert batch[..i + 1][..i] == batch[..i];
      }
      assert batch[..|batch|] == batch;
    }

    method Update()
      requires Valid()
      modifies this
      ensures Valid() && Model() == Updated(old(Model()))
    {
      if needUpdateQrcode {
        displayedQrcodePath := currentQrcodePath;
        needUpdateQrcode := false;
      }
    }

    /** Takes each handle and joins it; the join results are discarded. */
    method Cleanup() returns (joined: seq<HandleId>)
      requires Valid()
      modifies this
      ensures Valid() && Model() == CleanedUp(old(Model()))
      ensures joined == JoinedBy(old(Model()))
    {
      joined := [];
      var taken := refreshImageThreadHandle;
      refreshImageThreadHandle := None;
      match taken {
        case Some(h) => joined := joined + [h];
        case None =>
      }
      taken := pollScanResultThreadHandle;
      pollScanResultThreadHandle := None;
      match taken {
        case Some(h) => joined := joined + [h];
        case None =>
      }
    }
  }
}
