/**
 * The panel "alien text" (`PanelService.animate`): a shared pool of random strings that
 * grows to at most 100 entries, and per text panel a list of at most 10 lines in which,
 * once full, the oldest line is recycled to the end. Each panel's DOM line list is a
 * `seq<string>`; the projected screen position is not modelled, only whether the panel
 * is on screen.
 */
module Panels {
  import opened Camera

  const PoolLimit: nat := 100
  const MaxLines: nat := 10
  const MaxChars: nat := 25
  const Alphabet: string := "abcdefghijklmnopqrstuvwxyz"

  /** `randomPanelStrings` as initialised: 20 non-breaking spaces. */
  const InitialPool: seq<string> := seq(20, _ => "&nbsp")

  /** Where a panel's `div` was put: at -10000px, or at its projected screen position. */
  datatype Placement = Unplaced | Offscreen | Projected

  datatype Panel = Panel(name: string, alienText: bool, lines: seq<string>, placement: Placement)

  /** The draws `animate` makes for one panel. */
  datatype LineDraw = LineDraw(
    roll: int,           // randomIntFromInterval(0, 10); a line is added on 0
    numChars: real,      // Math.random() * 25
    chars: seq<int>,     // Math.floor(Math.random() * 26), one per character
    pick: int)           // Math.floor(Math.random() * pool length), once the pool is full

  predicate ValidLineDraw(d: LineDraw) {
    && 0 <= d.roll <= 10
    && 0.0 <= d.numChars < MaxChars as real
    && |d.chars| == MaxChars && (forall i :: 0 <= i < |d.chars| ==> 0 <= d.chars[i] < |Alphabet|)
    && 0 <= d.pick < PoolLimit
  }

  predicate AllValid(ds: seq<LineDraw>) {
    forall i :: 0 <= i < |ds| ==> ValidLineDraw(ds[i])
  }

  /** How often `for (j = 0; j < numChars; j++)` runs: the ceiling of `numChars`. */
  function CharCount(numChars: real): (n: int)
    requires 0.0 <= numChars
    ensures n >= 0 && n as real >= numChars && (n - 1) as real < numChars
  {
    -((-numChars).Floor)
  }

  predicate Lowercase(s: string) {
    forall i :: 0 <= i < |s| ==> 'a' <= s[i] <= 'z'
  }

  /** The string the character loop builds. */
  function GeneratedLine(numChars: real, chars: seq<int>): (s: string)
    requires 0.0 <= numChars < MaxChars as real
    requires |chars| == MaxChars && forall i :: 0 <= i < |chars| ==> 0 <= chars[i] < |Alphabet|
    ensures 0 <= |s| <= 25
    ensures Lowercase(s)
  {
    seq(CharCount(numChars), i requires 0 <= i < CharCount(numChars) => Alphabet[chars[i]])
  }

  /** The character loop of `animate`, appending one letter per pass. */
  method RandomString(numChars: real, chars: seq<int>) returns (str: string)
    requires 0.0 <= numChars < MaxChars as real
    requires |chars| == MaxChars && forall i :: 0 <= i < |chars| ==> 0 <= chars[i] < |Alphabet|
    ensures |str| == CharCount(numChars) && |str| <= 25
    ensures forall i :: 0 <= i < |str| ==> str[i] == Alphabet[chars[i]]
    ensures str == GeneratedLine(numChars, chars)
  {
    str := "";
    var j := 0;
    while (j as real) < numChars
      invariant 0 <= j <= CharCount(numChars)
      invariant |str| == j
      invariant forall i :: 0 <= i < j ==> str[i] == Alphabet[chars[i]]
    {
      str := str + [Alphabet[chars[j]]];
      j := j + 1;
    }
  }

  /** Append `s` to a panel's lines, recycling the oldest line once there are 10. */
  function PushLine(lines: seq<string>, s: string): (r: seq<string>)
  {
    if |lines| == MaxLines then lines[1..] + [s] else lines + [s]
  }

  /** The newest `n` entries of `q`. */
  function Newest<T>(q: seq<T>, n: nat): (r: seq<T>)
    ensures |r| == if |q| < n then |q| else n
  {
    if |q| <= n then q else q[|q| - n..]
  }

  /**
   * The line list is a bounded drop-oldest queue: it holds the newest 10 of its old lines
   * followed by the new one, the new line last.
   */
  lemma PushLineKeepsNewest(lines: seq<string>, s: string)
    requires |lines| <= MaxLines
    ensures PushLine(lines, s) == Newest(lines + [s], MaxLines)
    ensures |PushLine(lines, s)| <= MaxLines && PushLine(lines, s)[|PushLine(lines, s)| - 1] == s
    ensures |lines| < MaxLines ==> PushLine(lines, s)[..|lines|] == lines
    ensures |lines| == MaxLines ==> PushLine(lines, s)[..MaxLines - 1] == lines[1..]
  {
    if |lines| == MaxLines {
      assert (lines + [s])[|lines + [s]| - MaxLines..] == lines[1..] + [s];
    }
  }

  /** The string a new line shows, and the pool after choosing it. */
  function NewLine(pool: seq<string>, d: LineDraw): (r: (string, seq<string>))
    requires ValidLineDraw(d) && |pool| <= PoolLimit
    ensures |pool| < PoolLimit ==> r.1 == pool + [r.0] && |r.0| <= 25 && Lowercase(r.0)
    ensures |pool| == PoolLimit ==> r.1 == pool && r.0 in pool
  {
    if |pool| < PoolLimit then
      var s := GeneratedLine(d.numChars, d.chars);
      (s, pool + [s])
    else
      (pool[d.pick], pool)
  }

  /** One pass of `animate`'s panel loop on one panel. */
  function StepPanel(p: Panel, pool: seq<string>, d: LineDraw, onCamera1: bool): (r: (Panel, seq<string>))
    requires ValidLineDraw(d) && |pool| <= PoolLimit
    ensures r.0.name == p.name && r.0.alienText == p.alienText
    ensures r.0.placement == if onCamera1 then Projected else Offscreen
    ensures (!onCamera1 || !p.alienText || d.roll != 0) ==> r.0.lines == p.lines && r.1 == pool
    ensures onCamera1 && p.alienText && d.roll == 0 ==> r.0.lines == PushLine(p.lines, NewLine(pool, d).0)
    ensures onCamera1 && p.alienText && d.roll == 0 ==> r.1 == NewLine(pool, d).1
    ensures |r.1| <= PoolLimit && pool <= r.1 && |r.1| <= |pool| + 1
    ensures |pool| == PoolLimit ==> r.1 == pool
  {
    if !onCamera1 then (p.(placement := Offscreen), pool)
    else if !p.alienText || d.roll != 0 then (p.(placement := Projected), pool)
    else
      var (s, pool') := NewLine(pool, d);
      (p.(placement := Projected, lines := PushLine(p.lines, s)), pool')
  }

  /** The whole panel loop of `animate`, panel by panel. */
  function AnimateSpec(ps: seq<Panel>, pool: seq<string>, ds: seq<LineDraw>, onCamera1: bool): (r: (seq<Panel>, seq<string>))
    requires |ds| == |ps| && AllValid(ds) && |pool| <= PoolLimit
    ensures |r.0| == |ps| && |r.1| <= PoolLimit
    decreases |ps|
  {
    if ps == [] then ([], pool)
    else
      var n := |ps| - 1;
      var (front, pool') := AnimateSpec(ps[..n], pool, ds[..n], onCamera1);
      var (last, pool'') := StepPanel(ps[n], pool', ds[n], onCamera1);
      (front + [last], pool'')
  }

  /** What the panel loop keeps: the pool only grows, names and kinds stay, plain panels keep their lines,
      no panel exceeds ten lines, and off Camera1 every panel is hidden and no string is drawn. */
  lemma {:induction false} AnimateSpecFacts(ps: seq<Panel>, pool: seq<string>, ds: seq<LineDraw>, onCamera1: bool)
    requires |ds| == |ps| && AllValid(ds) && |pool| <= PoolLimit
    ensures var r := AnimateSpec(ps, pool, ds, onCamera1);
      && pool <= r.1
      && (|pool| == PoolLimit ==> r.1 == pool)
      && (forall i :: 0 <= i < |ps| ==> r.0[i].name == ps[i].name && r.0[i].alienText == ps[i].alienText)
      && (forall i :: 0 <= i < |ps| && !ps[i].alienText ==> r.0[i].lines == ps[i].lines)
      && (forall i :: 0 <= i < |ps| && |ps[i].lines| <= MaxLines ==> |r.0[i].lines| <= MaxLines)
      && (!onCamera1 ==> r.1 == pool && forall i :: 0 <= i < |ps| ==> r.0[i] == ps[i].(placement := Offscreen))
    decreases |ps|
  {
    if ps != [] {
      var n := |ps| - 1;
      AnimateSpecFacts(ps[..n], pool, ds[..n], onCamera1);
      var (front, pool') := AnimateSpec(ps[..n], pool, ds[..n], onCamera1);
      PushLineBounded(ps[n].lines, NewLine(pool', ds[n]).0);
      forall i | 0 <= i < n
        ensures ps[..n][i] == ps[i]
      {
      }
    }
  }

  /** Extending the processed prefix by one panel is one more `StepPanel`. */
  lemma AnimateSpecSnoc(ps: seq<Panel>, pool: seq<string>, ds: seq<LineDraw>, onCamera1: bool, i: nat)
    requires |ds| == |ps| && AllValid(ds) && |pool| <= PoolLimit && i < |ps|
    ensures var (front, pool') := AnimateSpec(ps[..i], pool, ds[..i], onCamera1);
      var (last, pool'') := StepPanel(ps[i], pool', ds[i], onCamera1);
      AnimateSpec(ps[..i + 1], pool, ds[..i + 1], onCamera1) == (front + [last], pool'')
  {
    assert ps[..i + 1][..i] == ps[..i] && ds[..i + 1][..i] == ds[..i];
  }

  lemma PushLineBounded(lines: seq<string>, s: string)
    ensures |lines| <= MaxLines ==> |PushLine(lines, s)| <= MaxLines
  {
  }

  /** One pass of the panel loop, as statements. */
  method AnimatePanel(p: Panel, pool: seq<string>, d: LineDraw, onCamera1: bool) returns (p': Panel, pool': seq<string>)
    requires ValidLineDraw(d) && |pool| <= PoolLimit
    ensures (p', pool') == StepPanel(p, pool, d, onCamera1)
  {
    pool' := pool;
    if !onCamera1 {
      p' := p.(placement := Offscreen);
      return;
    }
    p' := p.(placement := Projected);
    if p.alienText {
      var shouldAddNewLine := d.roll == 0;
      if shouldAddNewLine {
        var str;
        if |pool| < PoolLimit {
          str := RandomString(d.numChars, d.chars);
          pool' := pool + [str];
        } else {
          str := pool[d.pick];
        }
        if |p'.lines| == MaxLines {
          p' := p'.(lines := p'.lines[1..] + [str]);
        } else {
          p' := p'.(lines := p'.lines + [str]);
        }
      }
    }
  }

  /** The panel loop of `animate`: every panel in turn, each updated in place. */
  method AnimateAll(ps: seq<Panel>, pool: seq<string>, ds: seq<LineDraw>, onCamera1: bool)
    returns (ps': seq<Panel>, pool': seq<string>)
    requires |ds| == |ps| && AllValid(ds) && |pool| <= PoolLimit
    ensures (ps', pool') == AnimateSpec(ps, pool, ds, onCamera1)
  {
    ps', pool' := ps, pool;
    var i := 0;
    while i < |ps'|
      invariant 0 <= i <= |ps'| == |ps|
      invariant forall k :: i <= k < |ps| ==> ps'[k] == ps[k]
      invariant (ps'[..i], pool') == AnimateSpec(ps[..i], pool, ds[..i], onCamera1)
    {
      var p, next := AnimatePanel(ps'[i], pool', ds[i], onCamera1);
      AnimateSpecSnoc(ps, pool, ds, onCamera1, i);
      assert ps'[i := p][..i + 1] == ps'[..i] + [p];
      ps' := ps'[i := p];
      pool' := next;
      i := i + 1;
    }
    assert ps'[..i] == ps' && ps[..i] == ps && ds[..i] == ds;
  }

  class PanelService {
    var panels: seq<Panel>
    var randomPanelStrings: seq<string>

    ghost predicate Valid()
      reads this
    {
      && |InitialPool| <= |randomPanelStrings| <= PoolLimit
      && forall i :: 0 <= i < |panels| ==> |panels[i].lines| <= MaxLines
    }

    /** The pool as initialised and the three panels `create` registers. */
    constructor Create()
      ensures Valid()
      ensures randomPanelStrings == InitialPool
      ensures panels == [Panel("leftbottom", true, [], Unplaced),
                         Panel("rightbottom", true, [], Unplaced),
                         Panel("main", false, [], Unplaced)]
    {
      randomPanelStrings := InitialPool;
      panels := [Panel("leftbottom", true, [], Unplaced),
                 Panel("rightbottom", true, [], Unplaced),
                 Panel("main", false, [], Unplaced)];
    }

    /** The panel loop of `animate`; which camera is active decides whether panels are shown. */
    method Animate(cameras: CameraService, ds: seq<LineDraw>)
      requires Valid() && cameras.Valid()
      requires |ds| == |panels| && AllValid(ds)
      modifies this
      ensures Valid()
      ensures (panels, randomPanelStrings) ==
        AnimateSpec(old(panels), old(randomPanelStrings), ds, cameras.activeCamera == Camera1)
    {
      var onCamera1 := cameras.activeCamera == Camera1;
      AnimateSpecFacts(panels, randomPanelStrings, ds, onCamera1);
      panels, randomPanelStrings := AnimateAll(panels, randomPanelStrings, ds, onCamera1);
    }
  }
}
