/** KillSwitch's own reader, and what update decides once it has read the file. */
module KillSwitch {
  import opened Wrappers
  import opened JsonValues
  import opened KillSwitchState

  class Switch {
    var stamp: Option<Stamp>
    var good: Option<KillState>
    var bad: Option<Option<Stamp>>
    var stale: bool

    constructor ()
      ensures Snapshot() == NewReader()
    {
      stamp, good, bad, stale := None, None, None, false;
    }

    ghost function Snapshot(): Reader
      reads this
    {
      Reader(stamp, good, bad, stale)
    }

    /** state; None is the UsageError. */
    method GetState(sight: Sight) returns (r: Option<KillState>)
      modifies this
      ensures Snapshot() == Look(old(Snapshot()), sight).0
      ensures r == Look(old(Snapshot()), sight).1
    {
      var seen: Option<Stamp> := None;
      var state := EMPTY;
      if sight.StatFails? {
        r := Fallback(seen);
        return;
      }
      if sight.Found? {
        seen := Some(sight.stamp);
        if seen == stamp && good.Some? {
          state := good.value;
        } else if bad == Some(seen) && good.Some? {
          stale := true;
          return good;
        } else if sight.read.Some? {
          state := sight.read.value;
        } else {
          r := Fallback(seen);
          return;
        }
      }
      stamp, good, stale, bad := seen, Some(state), false, None;
      return good;
    }

    /** The `except` of state. */
    method Fallback(seen: Option<Stamp>) returns (r: Option<KillState>)
      modifies this
      ensures Snapshot() == Refuse(old(Snapshot()), seen).0 && r == Refuse(old(Snapshot()), seen).1
    {
      if good.None? {
        return None;
      }
      bad := Some(seen);
      stale := true;
      return good;
    }
  }

  /** update, alone on its file: read, change, check, write.  `fails` says that the write raises an
      OSError. */
  method RunUpdate(file: File, change: Change, fails: bool) returns (left: File, outcome: Outcome)
    ensures outcome.Written? ==> left.Content? && Parse(left.data).Some? && Load(file).Some?
    ensures outcome.Written? ==> change(Load(file).value) == Some(left.data)
    ensures !outcome.Written? ==> left == file
    ensures outcome == (if fails && Updated(file, change).1.Written? then Unwritable else Updated(file, change).1)
  {
    left := file;
    var raw := Load(file);
    if raw.None? {
      return left, BadFile;
    }
    if Parse(raw.value).None? {
      return left, BadFile;
    }
    var changed := change(raw.value);
    if changed.None? {
      return left, BadChange;
    }
    if Parse(changed.value).None? {
      return left, BadChange;
    }
    if fails {
      return left, Unwritable;
    }
    left := Content(changed.value);
    outcome := Written;
  }
}
