/**
 The RTP video sender channel as an object whose lifecycle fields are
 updated in place. Each method is proved against the function of module
 Lifecycle that describes the same operation, so the lemmas proved there
 about sequences of operations hold of the object too. Every operation runs
 to completion before the next begins (the channel's lock is not modelled).
 */
module SenderChannelVideo {
  import opened Lifecycle

  /** Identifies the sender channel that owns a video channel. */
  type SenderChannelId = nat

  /** What the factory returns: a channel, or the invalid-parameters failure. */
  datatype CreateResult = Created(channel: RtpSenderChannelVideo) | InvalidParameters

  class RtpSenderChannelVideo {
    var currentState: State
    var lastError: Word
    var lastErrorReason: string
    // a strong reference to this channel, held by itself while cancel runs
    var gracefulShutdownReference: bool
    // whether this channel's weak reference to itself still resolves
    var thisWeak: bool
    /** The standard text for an error code, a lookup outside this model. */
    const statusText: Word -> string

    /** The lifecycle fields as a value. */
    function View(): Lifecycle.Snapshot
      reads this
    {
      Lifecycle.Snapshot(currentState, lastError, lastErrorReason, gracefulShutdownReference, thisWeak)
    }

    /** The fields as constructed; the weak self-reference is set by Create. */
    constructor (statusText: Word -> string)
      ensures View() == Initial(false)
      ensures this.statusText == statusText
    {
      currentState := Pending;
      lastError := 0;
      lastErrorReason := "";
      gracefulShutdownReference := false;
      thisWeak := false;
      this.statusText := statusText;
    }

    /**
     The factory: fails when no sender channel is given; otherwise builds the
     channel and points its weak self-reference at it.
     */
    static method Create(senderChannel: Option<SenderChannelId>, statusText: Word -> string)
      returns (r: CreateResult)
      ensures r.InvalidParameters? <==> senderChannel.None?
      ensures r.Created? ==>
        && fresh(r.channel)
        && r.channel.View() == Initial(true)
        && r.channel.statusText == statusText
    {
      if senderChannel.None? {
        return InvalidParameters;
      }
      var channel := new RtpSenderChannelVideo(statusText);
      channel.thisWeak := true;
      return Created(channel);
    }

    /** Inbound RTCP packets are not handled yet: every packet is refused. */
    method HandlePacket(packet: seq<bv8>) returns (handled: bool)
      ensures !handled
    {
      handled := false;
    }

    /** `onWake`: one step over the channel's own sub-tasks. */
    method OnWake()
      modifies this`currentState, this`gracefulShutdownReference
      ensures View() == StepSpec(old(View()), VideoSubTasks())
      ensures old(currentState) == Pending || old(currentState) == Ready ==> currentState == Ready
    {
      Step(VideoSubTasks());
    }

    /**
     `step`: forwards to Cancel during teardown; otherwise runs the sub-tasks
     in order, returns without a change at the first blocked one, and becomes
     Ready when none is blocked.
     */
    method Step(subTasks: seq<Outcome>)
      modifies this`currentState, this`gracefulShutdownReference
      ensures View() == StepSpec(old(View()), subTasks)
    {
      if IsTearingDown(currentState) {
        Cancel();
        return;
      }
      if RunSubTasks(subTasks).BlockedAt? {
        // not ready: wait for the next wake
        return;
      }
      SetState(Ready);
    }

    /**
     `cancel`: returns at once when Shutdown; otherwise holds a reference to
     itself (when its weak self-reference still resolves), becomes Shutdown
     and releases that reference.
     */
    method Cancel()
      modifies this`currentState, this`gracefulShutdownReference
      ensures View() == CancelSpec(old(View()))
    {
      if currentState == Shutdown {
        return;
      }
      if !gracefulShutdownReference {
        gracefulShutdownReference := thisWeak;
      }
      SetState(Shutdown);
      gracefulShutdownReference := false;
    }

    /** `setState`: a write of the state alone, skipped when it is unchanged. */
    method SetState(state: State)
      modifies this`currentState
      ensures currentState == state
    {
      if state == currentState {
        return;
      }
      currentState := state;
    }

    /**
     `setError`: defaults an empty reason to the code's standard text, then
     records code and reason unless a nonzero code is already recorded.
     */
    method SetError(code: Word, reason: string)
      modifies this`lastError, this`lastErrorReason
      ensures View() == SetErrorSpec(old(View()), code, reason, statusText)
    {
      var text := reason;
      if |text| == 0 {
        text := statusText(code);
      }
      if lastError != 0 {
        return;
      }
      lastError := code;
      lastErrorReason := text;
    }
  }
}
