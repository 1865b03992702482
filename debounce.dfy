/**
 * The debounced push-button tracker of buttons.c: every poll samples each
 * channel's pin once; a channel's debounced state follows the pin only after
 * NumButPolls consecutive disagreeing samples, and each committed change
 * raises a one-shot flag that checkButton consumes.
 */
module Debounce {

  /** The report of checkButton (enum butStates). */
  datatype ButEvent = Released | Pushed | NoChange

  /** Channel numbers (enum butNames). */
  const Up: nat := 0
  const Down: nat := 1
  const Left: nat := 2
  const Right: nat := 3
  const Switch: nat := 4
  const Switch2: nat := 5
  const NumButs: nat := 6

  /** Consecutive disagreeing polls needed to commit a change. */
  const NumButPolls: int := 3

  /**
   * Idle ("normal") pin level of each channel. UP, DOWN and the mode switch
   * idle low, LEFT and RIGHT idle high. SWITCH_2 is never given a polarity by
   * initButtons, so it keeps the zero value of a C static array: false.
   */
  const Normals: seq<bool> := [false, false, true, true, false, false]

  /** One channel's debounce record: debounced level, mismatch counter, one-shot flag. */
  datatype Channel = Channel(state: bool, count: int, flag: bool)

  /** Every channel settled at its idle level, with a zero counter and nothing pending. */
  const Settled: seq<Channel> := seq(NumButs, i requires 0 <= i < NumButs => Channel(Normals[i], 0, false))

  /** A counter that a poll can leave behind. */
  predicate CountOk(c: Channel)
  {
    0 <= c.count < NumButPolls
  }

  /** One poll of one channel with pin level `sample`. */
  function Poll(c: Channel, sample: bool): (r: Channel)
    ensures sample == c.state ==> r == c.(count := 0)
    ensures sample != c.state && c.count + 1 < NumButPolls ==> r == c.(count := c.count + 1)
    ensures sample != c.state && c.count + 1 >= NumButPolls ==> r == Channel(sample, 0, true)
    ensures CountOk(c) ==> CountOk(r)
    ensures r.state != c.state ==> sample != c.state && c.count >= NumButPolls - 1
    ensures r.state != c.state ==> r.flag && r.count == 0
    ensures r.flag != c.flag ==> r.flag && r.state != c.state
    ensures r.state == sample || r.state == c.state
  {
    if sample != c.state then
      if c.count + 1 >= NumButPolls then Channel(sample, 0, true)
      else c.(count := c.count + 1)
    else
      c.(count := 0)
  }

  /**
   * checkButton on one channel: the event it reports and the channel
   * afterwards. A set flag is consumed and reported relative to the idle
   * polarity; otherwise nothing changes.
   */
  function Check(c: Channel, normal: bool): (r: (ButEvent, Channel))
    ensures !r.1.flag && r.1.state == c.state && r.1.count == c.count
    ensures r.0 == NoChange <==> !c.flag
    ensures r.0 == Released <==> c.flag && c.state == normal
    ensures r.0 == Pushed <==> c.flag && c.state != normal
  {
    if c.flag then
      (if c.state == normal then Released else Pushed, c.(flag := false))
    else
      (NoChange, c)
  }

  /** The channel after a run of polls, oldest sample first. */
  function PollAll(c: Channel, samples: seq<bool>): Channel
  {
    if samples == [] then c else Poll(PollAll(c, samples[..|samples| - 1]), samples[|samples| - 1])
  }

  /**
   * The counter is exactly the length of the trailing run of samples that
   * disagree with the debounced state: starting from a settled channel,
   * after any run of polls the last `count` samples all disagree with the
   * current state, and the sample before them, if any, agrees with it.
   */
  lemma {:induction false} CountIsTrailingMismatches(c: Channel, samples: seq<bool>)
    requires c.count == 0
    ensures var r := PollAll(c, samples);
      CountOk(r) && r.count <= |samples| &&
      (forall k :: |samples| - r.count <= k < |samples| ==> samples[k] != r.state) &&
      (r.count < |samples| ==> samples[|samples| - 1 - r.count] == r.state)
  {
    if samples != [] {
      var front := samples[..|samples| - 1];
      CountIsTrailingMismatches(c, front);
      var before := PollAll(c, front);
      assert forall k :: 0 <= k < |front| ==> front[k] == samples[k];
    }
  }

  /**
   * A debounced level changes only on the third of three consecutive polls
   * that all read the new level.
   */
  lemma {:induction false} CommitNeedsThreeAgreeingPolls(c: Channel, samples: seq<bool>)
    requires c.count == 0 && samples != []
    requires PollAll(c, samples).state != PollAll(c, samples[..|samples| - 1]).state
    ensures |samples| >= NumButPolls
    ensures forall k :: |samples| - NumButPolls <= k < |samples| ==> samples[k] == PollAll(c, samples).state
  {
    var n := |samples|;
    var front := samples[..n - 1];
    var before := PollAll(c, front);
    var after := PollAll(c, samples);
    assert after == Poll(before, samples[n - 1]);
    CountIsTrailingMismatches(c, front);
    assert before.count == 2;
    assert forall k :: n - 3 <= k < n - 1 ==> front[k] == samples[k] && front[k] != before.state;
  }

  /** A settled channel polled twice with the other level and then once with its own is unchanged: no event. */
  lemma TwoMismatchesThenMatch(c: Channel)
    requires c.count == 0
    ensures PollAll(c, [!c.state, !c.state, c.state]) == c
  {
    var s := [!c.state, !c.state, c.state];
    assert s[..2][..1][..0] == [];
    assert PollAll(c, s[..2][..1]) == Poll(c, !c.state);
    assert PollAll(c, s[..2]) == Poll(Poll(c, !c.state), !c.state);
  }

  /**
   * Three disagreeing polls of a settled, consumed channel produce exactly one
   * event: the next check reports it and a second check reports NoChange.
   */
  lemma ThreeMismatchesOneEvent(c: Channel, normal: bool)
    requires c.count == 0 && !c.flag
    ensures var r := PollAll(c, [!c.state, !c.state, !c.state]);
      r == Channel(!c.state, 0, true) &&
      Check(r, normal).0 == (if !c.state == normal then Released else Pushed) &&
      Check(Check(r, normal).1, normal).0 == NoChange
  {
    var s := [!c.state, !c.state, !c.state];
    assert s[..2][..1][..0] == [];
    assert PollAll(c, s[..2][..1]) == Poll(c, !c.state);
    assert PollAll(c, s[..2]) == Poll(Poll(c, !c.state), !c.state);
  }

  /** Consuming an event leaves nothing to report until the next committed change. */
  lemma CheckTwice(c: Channel, normal: bool)
    ensures Check(Check(c, normal).1, normal) == (NoChange, Check(c, normal).1)
  {
  }

  /**
   * The per-channel arrays of buttons.c (g_but_state, g_but_count,
   * g_but_flag, g_but_normal), updated in place.
   */
  class Debouncer {
    var state: array<bool>
    var count: array<int>
    var flag: array<bool>
    var normal: array<bool>

    ghost predicate Valid()
      reads this, state, count, flag, normal
    {
      && state.Length == NumButs && count.Length == NumButs
      && flag.Length == NumButs && normal.Length == NumButs
      && state != flag && state != normal && flag != normal
      && (forall i :: 0 <= i < NumButs ==> normal[i] == Normals[i])
      && (forall i :: 0 <= i < NumButs ==> 0 <= count[i] < NumButPolls)
    }

    /** Channel `i` as a value. */
    ghost function Chan(i: int): Channel
      reads this, state, count, flag
      requires 0 <= i < state.Length && i < count.Length && i < flag.Length
    {
      Channel(state[i], count[i], flag[i])
    }

    /** All six channels as values, in channel order. */
    ghost function Chans(): (cs: seq<Channel>)
      reads this, state, count, flag
      requires state.Length == NumButs && count.Length == NumButs && flag.Length == NumButs
      ensures |cs| == NumButs && forall i :: 0 <= i < NumButs ==> cs[i] == Chan(i)
    {
      [Chan(Up), Chan(Down), Chan(Left), Chan(Right), Chan(Switch), Chan(Switch2)]
    }

    /**
     * initButtons without the pin configuration: the idle polarities are
     * recorded and every channel starts settled at its idle level with a
     * zero counter and no pending event. The arrays start zeroed, as C
     * statics do.
     */
    constructor ()
      ensures Valid() && fresh(state) && fresh(count) && fresh(flag) && fresh(normal)
      ensures forall i :: 0 <= i < NumButs ==> state[i] == Normals[i] && count[i] == 0 && !flag[i]
      ensures Chans() == Settled
    {
      var st := new bool[NumButs];
      var ct := new int[NumButs];
      var fl := new bool[NumButs];
      var nm := new bool[NumButs][false, false, true, true, false, false];
      for i := 0 to NumButs
        modifies st, ct, fl
        invariant forall k :: 0 <= k < i ==> st[k] == Normals[k] && ct[k] == 0 && !fl[k]
      {
        st[i] := nm[i];
        ct[i] := 0;
        fl[i] := false;
      }
      state, count, flag, normal := st, ct, fl, nm;
    }

    /**
     * updateButtons: one poll of every channel; `values[i]` is the level read
     * from channel i's pin (true is high). Each channel is updated from its
     * own sample only.
     */
    method UpdateButtons(values: seq<bool>)
      requires Valid() && |values| == NumButs
      modifies state, count, flag
      ensures Valid()
      ensures forall i :: 0 <= i < NumButs ==> Chan(i) == Poll(old(Chan(i)), values[i])
    {
      for i := 0 to NumButs
        invariant forall k :: 0 <= k < i ==> Chan(k) == Poll(old(Chan(k)), values[k])
        invariant forall k :: i <= k < NumButs ==> Chan(k) == old(Chan(k))
        invariant forall k :: 0 <= k < NumButs ==> 0 <= count[k] < NumButPolls
      {
        if values[i] != state[i] {
          count[i] := count[i] + 1;
          if count[i] >= NumButPolls {
            state[i] := values[i];
            flag[i] := true;
            count[i] := 0;
          }
        } else {
          count[i] := 0;
        }
      }
    }

    /**
     * checkButton: report and consume channel `name`'s pending change;
     * every other channel, and this channel's level and counter, are untouched.
     */
    method CheckButton(name: nat) returns (ev: ButEvent)
      requires Valid() && name < NumButs
      modifies flag
      ensures Valid()
      ensures (ev, Chan(name)) == Check(old(Chan(name)), Normals[name])
      ensures forall i :: 0 <= i < NumButs && i != name ==> flag[i] == old(flag[i])
    {
      ev := NoChange;
      if flag[name] {
        flag[name] := false;
        if state[name] == normal[name] {
          ev := Released;
        } else {
          ev := Pushed;
        }
      }
    }
  }
}
