/** The audio player: three states, four buttons that may be kept pressed,
    and the actions the player performs. The player holds its current state
    and each click is handled by that state, which may replace it. */
module State {

  /** ReadyState, PlayingState and LockedState. They hold nothing but the
      player they belong to, so they are values here. */
  datatype PlayerState = Ready | Playing | Locked

  datatype Button = Lock | Play | Next | Previous

  /** The player's action methods (each prints one line). */
  datatype Action = StartPlayback | StopPlayback | NextSong | PreviousSong | FastForward | Rewind

  /** The state after a click and the actions performed on the way. */
  datatype Outcome = Outcome(next: PlayerState, actions: seq<Action>)

  /** getStateName. */
  function StateName(s: PlayerState): (name: string)
    ensures name == "playing" <==> s == Playing
    ensures name == "ready" <==> s == Ready
    ensures name == "locked" <==> s == Locked
  {
    match s
    case Ready => "ready"
    case Playing => "playing"
    case Locked => "locked"
  }

  /** One click, as the current state's clickX handles it. In the locked
      state, clickLock asks the player for its state's name, which is the
      locked state's own, so it never finds "playing". */
  function Click(s: PlayerState, b: Button, kept: bool): (r: Outcome)
    ensures |r.actions| <= 1
    ensures r.next != s ==> b == Lock || b == Play
    ensures b == Lock ==> r.actions == [] && (r.next == Locked <==> s != Locked)
    ensures s == Locked ==> r.actions == [] && (b != Lock ==> r.next == Locked) && (b == Lock ==> r.next == Ready)
    ensures b == Play && s != Locked ==> r.next != s
    ensures kept && (b == Next || b == Previous) && s == Playing ==> r.actions != [] && r.actions[0] in {FastForward, Rewind}
    // play starts a ready player and stops a playing one
    ensures b == Play && s == Ready ==> r.next == Playing
    ensures b == Play && s == Playing ==> r.next == Ready
    ensures StartPlayback in r.actions <==> s == Ready && b == Play
    ensures StopPlayback in r.actions <==> s == Playing && b == Play
    // next and previous skip a song, or seek when kept pressed while playing
    ensures FastForward in r.actions <==> s == Playing && b == Next && kept
    ensures Rewind in r.actions <==> s == Playing && b == Previous && kept
    ensures NextSong in r.actions <==> s != Locked && b == Next && !(s == Playing && kept)
    ensures PreviousSong in r.actions <==> s != Locked && b == Previous && !(s == Playing && kept)
  {
    match s
    case Ready =>
      (match b
       case Lock => Outcome(Locked, [])
       case Play => Outcome(Playing, [StartPlayback])
       case Next => Outcome(Ready, [NextSong])
       case Previous => Outcome(Ready, [PreviousSong]))
    case Playing =>
      (match b
       case Lock => Outcome(Locked, [])
       case Play => Outcome(Ready, [StopPlayback])
       case Next => Outcome(Playing, [if kept then FastForward else NextSong])
       case Previous => Outcome(Playing, [if kept then Rewind else PreviousSong]))
    case Locked =>
      (match b
       case Lock => Outcome(if StateName(s) == "playing" then Playing else Ready, [])
       case _ => Outcome(Locked, []))
  }

  /** A sequence of clicks from state `s`: the final state and every action
      performed, in order. */
  function Run(s: PlayerState, clicks: seq<(Button, bool)>): Outcome
    decreases |clicks|
  {
    if clicks == [] then Outcome(s, [])
    else
      var first := Click(s, clicks[0].0, clicks[0].1);
      var rest := Run(first.next, clicks[1..]);
      Outcome(rest.next, first.actions + rest.actions)
  }

  /** Locking a playing player and unlocking it again lands in Ready, not
      back in Playing; the same holds from Ready. */
  lemma LockTwiceEndsReady(s: PlayerState, k1: bool, k2: bool)
    requires s != Locked
    ensures Run(s, [(Lock, k1), (Lock, k2)]) == Outcome(Ready, [])
  {
    var clicks := [(Lock, k1), (Lock, k2)];
    assert clicks[1..] == [(Lock, k2)];
    assert Run(Locked, [(Lock, k2)]) == Outcome(Ready, []);
  }

  /** While locked, no sequence of clicks without the lock button does
      anything: no action, no state change. */
  lemma {:induction false} LockedIgnoresAll(clicks: seq<(Button, bool)>)
    requires forall i :: 0 <= i < |clicks| ==> clicks[i].0 != Lock
    ensures Run(Locked, clicks) == Outcome(Locked, [])
  {
    if clicks != [] {
      LockedIgnoresAll(clicks[1..]);
    }
  }

  /** Playback only starts or stops through the play button. */
  lemma {:induction false} StartsOnlyByPlay(s: PlayerState, clicks: seq<(Button, bool)>)
    requires forall i :: 0 <= i < |clicks| ==> clicks[i].0 != Play
    ensures StartPlayback !in Run(s, clicks).actions && StopPlayback !in Run(s, clicks).actions
    decreases |clicks|
  {
    if clicks != [] {
      StartsOnlyByPlay(Click(s, clicks[0].0, clicks[0].1).next, clicks[1..]);
    }
  }

  class AudioPlayer {
    var state: PlayerState

    /** A new player is ready. */
    constructor ()
      ensures state == Ready
    {
      state := Ready;
    }

    method ChangeState(s: PlayerState)
      modifies this
      ensures state == s
    {
      state := s;
    }

    function GetState(): PlayerState
      reads this
    {
      state
    }

    method ClickLock(kept: bool) returns (actions: seq<Action>)
      modifies this
      ensures Outcome(state, actions) == Click(old(state), Lock, kept)
    {
      actions := [];
      match state
      case Ready =>
        ChangeState(Locked);
      case Playing =>
        ChangeState(Locked);
      case Locked =>
        var next := if StateName(GetState()) == "playing" then Playing else Ready;
        ChangeState(next);
    }

    method ClickPlay(kept: bool) returns (actions: seq<Action>)
      modifies this
      ensures Outcome(state, actions) == Click(old(state), Play, kept)
    {
      match state
      case Ready =>
        actions := [StartPlayback];
        ChangeState(Playing);
      case Playing =>
        actions := [StopPlayback];
        ChangeState(Ready);
      case Locked =>
        actions := [];
    }

    method ClickNext(kept: bool) returns (actions: seq<Action>)
      modifies this
      ensures Outcome(state, actions) == Click(old(state), Next, kept)
    {
      match state
      case Ready =>
        actions := [NextSong];
      case Playing =>
        actions := if kept then [FastForward] else [NextSong];
      case Locked =>
        actions := [];
    }

    method ClickPrevious(kept: bool) returns (actions: seq<Action>)
      modifies this
      ensures Outcome(state, actions) == Click(old(state), Previous, kept)
    {
      match state
      case Ready =>
        actions := [PreviousSong];
      case Playing =>
        actions := if kept then [Rewind] else [PreviousSong];
      case Locked =>
        actions := [];
    }
  }
}

module StateScenarios {
  import opened State

  /** The demo: lock at start-up, three ignored clicks, unlock, play, keep
      next pressed, click next, stop. */
  method Application() returns (actions: seq<Action>, last: PlayerState)
    ensures actions == [StartPlayback, FastForward, NextSong, StopPlayback]
    ensures last == Ready
  {
    var player := new AudioPlayer();
    var a1 := player.ClickLock(false);
    var a2 := player.ClickNext(false);
    var a3 := player.ClickPlay(false);
    var a4 := player.ClickPrevious(false);
    assert player.state == Locked && a1 + a2 + a3 + a4 == [];
    var a5 := player.ClickLock(false);
    var a6 := player.ClickPlay(false);
    var a7 := player.ClickNext(true);
    var a8 := player.ClickNext(false);
    var a9 := player.ClickPlay(false);
    actions := a5 + a6 + a7 + a8 + a9;
    last := player.state;
  }
}
