/** The container selector of the plugin, the three inventory containers it
    addresses, and the value-level meaning of locking or unlocking them. */
module ContainerTypes {

  import opened Wrappers

  /** The plugin's `ContainerType` enum, in declaration order. */
  datatype ContainerType = Belt | Clothing | Main | All

  /** The three item containers of a player's inventory:
      `containerWear`, `containerBelt` and `containerMain`. */
  datatype Container = ContainerWear | ContainerBelt | ContainerMain

  /** The enum member that names `c` alone. */
  function TypeOf(c: Container): (t: ContainerType)
    ensures t != All
  {
    match c
    case ContainerWear => Clothing
    case ContainerBelt => Belt
    case ContainerMain => Main
  }

  /** The containers the `switch` of LockOrUnlockContainerSlots collects,
      in the order it adds them: `All` selects every container, any other
      member exactly the one container it names, and none is added twice. */
  function Selected(t: ContainerType): (cs: seq<Container>)
    ensures forall c: Container :: c in cs <==> (t == All || TypeOf(c) == t)
    ensures forall i, j :: 0 <= i < j < |cs| ==> cs[i] != cs[j]
  {
    match t
    case Clothing => [ContainerWear]
    case Belt => [ContainerBelt]
    case Main => [ContainerMain]
    case All =>
      var cs := [ContainerWear, ContainerBelt, ContainerMain];
      assert forall c: Container :: c in cs by {
        forall c: Container ensures c in cs {
          if c.ContainerWear? { assert cs[0] == c; }
          else if c.ContainerBelt? { assert cs[1] == c; }
          else { assert cs[2] == c; }
        }
      }
      cs
  }

  /** The `IsLocked` flag of each of a player's three containers. */
  datatype LockFlags = LockFlags(wear: bool, belt: bool, main: bool) {

    function Get(c: Container): bool {
      match c
      case ContainerWear => wear
      case ContainerBelt => belt
      case ContainerMain => main
    }

    /** The flags after `SetFlag(IsLocked, b)` on container `c`. */
    function Set(c: Container, b: bool): (r: LockFlags)
      ensures r.Get(c) == b
      ensures forall d: Container :: d != c ==> r.Get(d) == Get(d)
    {
      match c
      case ContainerWear => this.(wear := b)
      case ContainerBelt => this.(belt := b)
      case ContainerMain => this.(main := b)
    }
  }

  const Unlocked := LockFlags(false, false, false)

  /** Two flag records that agree on every container are equal. */
  lemma FlagsExt(f: LockFlags, g: LockFlags)
    requires forall c: Container :: f.Get(c) == g.Get(c)
    ensures f == g
  {
    assert f.Get(ContainerWear) == g.Get(ContainerWear);
    assert f.Get(ContainerBelt) == g.Get(ContainerBelt);
    assert f.Get(ContainerMain) == g.Get(ContainerMain);
  }

  /** Sets every container of `cs`, one after the other, to `b`. */
  function SetEach(f: LockFlags, cs: seq<Container>, b: bool): (r: LockFlags)
    ensures forall c: Container :: r.Get(c) == if c in cs then b else f.Get(c)
  {
    if cs == [] then f else SetEach(f, cs[..|cs| - 1], b).Set(cs[|cs| - 1], b)
  }

  /** The number of containers of `cs` whose flag in `f` differs from `b`:
      the number of `SetFlag` writes the loop of LockOrUnlockContainerSlots
      performs when `cs` holds no container twice. */
  function Differing(f: LockFlags, cs: seq<Container>, b: bool): (n: nat)
    ensures n <= |cs|
    ensures n == 0 <==> forall c: Container :: c in cs ==> f.Get(c) == b
  {
    if cs == [] then 0
    else Differing(f, cs[..|cs| - 1], b) + (if f.Get(cs[|cs| - 1]) != b then 1 else 0)
  }

  /** The flags after LockOrUnlockContainerSlots(player, t, b): every container
      `t` selects has flag `b`, every other container keeps its flag. */
  function LockOrUnlock(f: LockFlags, t: ContainerType, b: bool): (r: LockFlags)
    ensures forall c: Container :: r.Get(c) == if t == All || TypeOf(c) == t then b else f.Get(c)
  {
    SetEach(f, Selected(t), b)
  }

  /** The number of containers whose flag differs between `f` and `g`. */
  function Changed(f: LockFlags, g: LockFlags): (n: nat)
    ensures n == 0 <==> f == g
  {
    (if f.wear != g.wear then 1 else 0) + (if f.belt != g.belt then 1 else 0)
      + (if f.main != g.main then 1 else 0)
  }

  /** Setting a flag that still has its value in `f` adds one change
      exactly when the new value differs from it. */
  lemma ChangedSet(f: LockFlags, g: LockFlags, c: Container, b: bool)
    requires g.Get(c) == f.Get(c)
    ensures Changed(f, g.Set(c, b)) == Changed(f, g) + (if f.Get(c) != b then 1 else 0)
  {
  }

  /** Over a list without repeats, the count of differing flags is the count
      of flags that setting the list changes. */
  lemma {:induction false} DifferingChanged(f: LockFlags, cs: seq<Container>, b: bool)
    requires forall i, j :: 0 <= i < j < |cs| ==> cs[i] != cs[j]
    ensures Differing(f, cs, b) == Changed(f, SetEach(f, cs, b))
  {
    if cs != [] {
      var init, last := cs[..|cs| - 1], cs[|cs| - 1];
      DifferingChanged(f, init, b);
      assert last !in init;
      ChangedSet(f, SetEach(f, init, b), last, b);
    }
  }

  /** Two steps that each only move flags towards `b` change, together, as
      many flags as the whole move from `f` to `h`. */
  lemma ChangedTowards(f: LockFlags, g: LockFlags, h: LockFlags, b: bool)
    requires forall c: Container :: g.Get(c) == f.Get(c) || g.Get(c) == b
    requires forall c: Container :: h.Get(c) == g.Get(c) || h.Get(c) == b
    ensures Changed(f, g) + Changed(g, h) == Changed(f, h)
  {
    assert g.Get(ContainerWear) == f.Get(ContainerWear) || g.Get(ContainerWear) == b;
    assert g.Get(ContainerBelt) == f.Get(ContainerBelt) || g.Get(ContainerBelt) == b;
    assert g.Get(ContainerMain) == f.Get(ContainerMain) || g.Get(ContainerMain) == b;
    assert h.Get(ContainerWear) == g.Get(ContainerWear) || h.Get(ContainerWear) == b;
    assert h.Get(ContainerBelt) == g.Get(ContainerBelt) || h.Get(ContainerBelt) == b;
    assert h.Get(ContainerMain) == g.Get(ContainerMain) || h.Get(ContainerMain) == b;
  }

  /** The `SetFlag` writes of LockOrUnlockContainerSlots(player, t, b): a flag
      is written exactly when it changes. */
  function Writes(f: LockFlags, t: ContainerType, b: bool): (n: nat)
    ensures n == Changed(f, LockOrUnlock(f, t, b))
  {
    DifferingChanged(f, Selected(t), b);
    Differing(f, Selected(t), b)
  }

  /** `All` locks or unlocks all three containers whatever they were. */
  lemma AllSetsEverything(f: LockFlags, b: bool)
    ensures LockOrUnlock(f, All, b) == LockFlags(b, b, b)
  {
    FlagsExt(LockOrUnlock(f, All, b), LockFlags(b, b, b));
  }

  /** A second identical call leaves every flag as the first call left it
      and writes no flag at all. */
  lemma LockOrUnlockIdempotent(f: LockFlags, t: ContainerType, b: bool)
    ensures LockOrUnlock(LockOrUnlock(f, t, b), t, b) == LockOrUnlock(f, t, b)
    ensures Writes(LockOrUnlock(f, t, b), t, b) == 0
  {
    var once := LockOrUnlock(f, t, b);
    FlagsExt(LockOrUnlock(once, t, b), once);
  }

  /** Whether some member of `ts` selects container `c`. */
  predicate Covers(ts: seq<ContainerType>, c: Container) {
    exists t :: t in ts && (t == All || TypeOf(c) == t)
  }

  lemma CoversSnoc(init: seq<ContainerType>, last: ContainerType, c: Container)
    ensures Covers(init + [last], c) <==> Covers(init, c) || last == All || TypeOf(c) == last
  {
    var ts := init + [last];
    if Covers(ts, c) {
      var t :| t in ts && (t == All || TypeOf(c) == t);
      if t != last { assert t in init; }
    }
    if Covers(init, c) {
      var t :| t in init && (t == All || TypeOf(c) == t);
      assert t in ts;
    }
    assert last in ts;
  }

  /** The flags after LockOrUnlockContainerSlots(player, t, b) for every `t`
      of `ts` in turn, as the connect and zone-enter handlers do. */
  function LockEach(f: LockFlags, ts: seq<ContainerType>, b: bool): (r: LockFlags)
    ensures forall c: Container :: r.Get(c) == if Covers(ts, c) then b else f.Get(c)
  {
    if ts == [] then f
    else
      var init := ts[..|ts| - 1];
      var last := ts[|ts| - 1];
      assert ts == init + [last];
      assert forall c: Container :: Covers(ts, c) <==> Covers(init, c) || last == All || TypeOf(c) == last by {
        forall c: Container ensures Covers(ts, c) <==> Covers(init, c) || last == All || TypeOf(c) == last {
          CoversSnoc(init, last, c);
        }
      }
      LockOrUnlock(LockEach(f, init, b), last, b)
  }

  /** The `SetFlag` writes of the calls LockEach(f, ts, b) describes: however
      many types overlap, each container is written at most once, and only
      when its flag changes. */
  function WritesEach(f: LockFlags, ts: seq<ContainerType>, b: bool): (n: nat)
    ensures n == Changed(f, LockEach(f, ts, b))
  {
    if ts == [] then 0
    else
      var init := ts[..|ts| - 1];
      var mid := LockEach(f, init, b);
      ChangedTowards(f, mid, LockOrUnlock(mid, ts[|ts| - 1], b), b);
      WritesEach(f, init, b) + Writes(mid, ts[|ts| - 1], b)
  }

  /** Locking a list of types never unlocks a container: every container
      some listed type selects ends locked, and every other container keeps
      its flag. */
  lemma LockEachOnlyLocks(f: LockFlags, ts: seq<ContainerType>, c: Container)
    ensures LockEach(f, ts, true).Get(c) == (f.Get(c) || Covers(ts, c))
    ensures f.Get(c) ==> LockEach(f, ts, true).Get(c)
  {
  }

  /** Locking the same list of types twice in a row changes nothing the
      second time. */
  lemma LockEachIdempotent(f: LockFlags, ts: seq<ContainerType>, b: bool)
    ensures LockEach(LockEach(f, ts, b), ts, b) == LockEach(f, ts, b)
  {
    var once := LockEach(f, ts, b);
    FlagsExt(LockEach(once, ts, b), once);
  }

  /** The name of each enum member, as `ToString` spells it. */
  function Name(t: ContainerType): string {
    match t
    case Belt => "Belt"
    case Clothing => "Clothing"
    case Main => "Main"
    case All => "All"
  }

  /** Upper-casing of one character, for the ASCII letters. */
  function Upper(ch: char): char {
    if 'a' <= ch <= 'z' then (ch as int - 32) as char else ch
  }

  /** Whether two strings are equal once letter case is ignored. */
  predicate EqualsIgnoreCase(a: string, b: string) {
    |a| == |b| && forall i :: 0 <= i < |a| ==> Upper(a[i]) == Upper(b[i])
  }

  /** `Enum.TryParse(s, true, out ContainerType t)` for the four member
      names: `s` parses to the member whose name it spells in any letter
      case, and to nothing when it spells none. */
  function ParseContainerType(s: string): (r: Option<ContainerType>)
    ensures r.Some? ==> EqualsIgnoreCase(s, Name(r.value))
    ensures r.None? <==> forall t: ContainerType :: !EqualsIgnoreCase(s, Name(t))
  {
    if EqualsIgnoreCase(s, "Belt") then Some(Belt)
    else if EqualsIgnoreCase(s, "Clothing") then Some(Clothing)
    else if EqualsIgnoreCase(s, "Main") then Some(Main)
    else if EqualsIgnoreCase(s, "All") then Some(All)
    else None
  }

  /** No string spells two member names: every spelling of a name, in any
      letter case, parses back to that member. */
  lemma ParseNameRoundTrip(t: ContainerType, s: string)
    requires EqualsIgnoreCase(s, Name(t))
    ensures ParseContainerType(s) == Some(t)
  {
    if t == Main {
      assert Upper(s[0]) == 'M';
      assert !EqualsIgnoreCase(s, "Belt") by { assert Upper("Belt"[0]) == 'B'; }
    }
  }
}
