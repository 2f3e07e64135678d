/** `Behavior`: the human-behaviour simulator of the browser layer. Mouse
    movements and scroll patterns are generated from random draws, which
    are given as a stream of naturals: `RandInt` and `Uniform` turn a draw
    into a value the way `random.randint` and `random.uniform` do. */
module Behavior {
  import opened Wrappers

  // ----- random draws -----

  /** `random.randint(a, b)`: a draw below `b - a + 1`, shifted to `a`. Every
      value of the range is reached by some draw. */
  function RandInt(a: int, b: int, draw: nat): (r: int)
    requires a <= b
    ensures a <= r <= b
    ensures draw <= b - a ==> r == a + draw
  {
    a + draw % (b - a + 1)
  }

  const TwoTo53: nat := 9007199254740992

  /** `random.random()`: a 53-bit draw scaled into [0, 1). */
  function Unit(draw: nat): (r: real)
    ensures 0.0 <= r < 1.0
  {
    (draw % TwoTo53) as real / TwoTo53 as real
  }

  /** `random.uniform(a, b)`, in exact arithmetic. */
  function Uniform(a: real, b: real, draw: nat): (r: real)
    ensures a <= b ==> a <= r <= b
  {
    var u := Unit(draw);
    var w := b - a;
    if a <= b then ScaleBounds(w, u); a + w * u
    else a + w * u
  }

  lemma ScaleBounds(w: real, u: real)
    requires 0.0 <= w && 0.0 <= u <= 1.0
    ensures 0.0 <= w * u <= w
  {
    assert w * u <= w * 1.0;
  }

  // ----- mouse movements -----

  datatype MouseMovement = MouseMovement(x: int, y: int, durationMs: int)

  /** Constructing a `MouseMovement`: every field validator runs, in field
      order, and each failure contributes its message. */
  function NewMouseMovement(x: int, y: int, durationMs: int): (r: Result<MouseMovement, seq<string>>)
    ensures r.Ok? <==> x >= 0 && y >= 0 && durationMs > 0
    ensures r.Ok? ==> r.value == MouseMovement(x, y, durationMs)
    ensures r.Err? ==> |r.error| == (if x < 0 then 1 else 0) + (if y < 0 then 1 else 0) + (if durationMs <= 0 then 1 else 0)
    ensures r.Err? ==> (x < 0 <==> "x coordinate must be non-negative" in r.error)
    ensures r.Err? ==> (y < 0 <==> "y coordinate must be non-negative" in r.error)
    ensures r.Err? ==> (durationMs <= 0 <==> "duration_ms must be positive" in r.error)
  {
    var errors := (if x < 0 then ["x coordinate must be non-negative"] else [])
      + (if y < 0 then ["y coordinate must be non-negative"] else [])
      + (if durationMs <= 0 then ["duration_ms must be positive"] else []);
    if errors == [] then Ok(MouseMovement(x, y, durationMs)) else Err(errors)
  }

  // ----- scroll patterns -----

  /** Positions, and delays whose length nothing relates to the positions'. */
  datatype ScrollPattern = ScrollPattern(scrollPositions: seq<int>, delaysSeconds: Option<seq<real>>)

  /** Constructing a `ScrollPattern`: the delays validator returns its
      input, so the model accepts any pair of lists. */
  function NewScrollPattern(positions: seq<int>, delays: Option<seq<real>>): Result<ScrollPattern, seq<string>> {
    Ok(ScrollPattern(positions, delays))
  }

  /** Delays of another length than the positions are accepted as given. */
  lemma ScrollPatternNoLengthCheck(positions: seq<int>, delays: seq<real>)
    requires |delays| != |positions|
    ensures NewScrollPattern(positions, Some(delays)).Ok?
    ensures |NewScrollPattern(positions, Some(delays)).value.delaysSeconds.value| != |positions|
  {
  }

  function Min(a: int, b: int): int {
    if a <= b then a else b
  }

  /** The positions reached by scrolling by `amounts` from the top, never
      past `pageHeight`. */
  function Positions(pageHeight: int, amounts: seq<int>): (r: seq<int>)
    ensures |r| == |amounts|
  {
    if amounts == [] then []
    else
      var prev := Positions(pageHeight, amounts[..|amounts| - 1]);
      var current := if prev == [] then 0 else prev[|prev| - 1];
      prev + [Min(current + amounts[|amounts| - 1], pageHeight)]
  }

  /** One more amount adds one position, from the last one reached. */
  lemma PositionsSnoc(pageHeight: int, amounts: seq<int>, k: nat)
    requires k < |amounts|
    ensures var prev := Positions(pageHeight, amounts[..k]);
      Positions(pageHeight, amounts[..k + 1])
        == prev + [Min((if k == 0 then 0 else prev[k - 1]) + amounts[k], pageHeight)]
  {
    assert amounts[..k + 1][..k] == amounts[..k];
  }

  /** Positions never decrease and never pass the page height; each step
      (the first from the top) is at most the largest amount, and at least
      the smallest unless it stops at the page height. */
  predicate Scrolls(positions: seq<int>, pageHeight: int, least: int, most: int) {
    && (forall i :: 0 <= i < |positions| ==> positions[i] <= pageHeight)
    && (forall i :: 0 < i < |positions| ==> positions[i - 1] <= positions[i])
    && (forall i :: 0 <= i < |positions| ==>
          var before := if i == 0 then 0 else positions[i - 1];
          positions[i] - before <= most && (positions[i] - before >= least || positions[i] == pageHeight))
  }

  lemma {:induction false} PositionsScroll(pageHeight: int, amounts: seq<int>, least: int, most: int)
    requires forall i :: 0 <= i < |amounts| ==> least <= amounts[i] <= most
    requires 0 <= least
    ensures Scrolls(Positions(pageHeight, amounts), pageHeight, least, most)
  {
    if amounts != [] {
      var n := |amounts| - 1;
      assert forall i :: 0 <= i < n ==> amounts[..n][i] == amounts[i];
      PositionsScroll(pageHeight, amounts[..n], least, most);
      var prev := Positions(pageHeight, amounts[..n]);
      var last := if n == 0 then 0 else prev[n - 1];
      PositionsSnoc(pageHeight, amounts, n);
      assert amounts[..n + 1] == amounts;
      var next := prev + [Min(last + amounts[n], pageHeight)];
      assert Positions(pageHeight, amounts) == next;
      ScrollsSnoc(prev, last, amounts[n], pageHeight, least, most);
      assert Scrolls(next, pageHeight, least, most);
    }
  }

  /** A scroll by an amount in range, from the last position, keeps the
      positions scrolling. */
  lemma ScrollsSnoc(prev: seq<int>, last: int, amount: int, pageHeight: int, least: int, most: int)
    requires Scrolls(prev, pageHeight, least, most)
    requires last == if prev == [] then 0 else prev[|prev| - 1]
    requires prev != [] ==> last <= pageHeight
    requires 0 <= least <= amount <= most
    ensures Scrolls(prev + [Min(last + amount, pageHeight)], pageHeight, least, most)
  {
    var next := prev + [Min(last + amount, pageHeight)];
    assert forall i :: 0 <= i < |prev| ==> next[i] == prev[i];
  }

  /** The scroll amounts of `generate_scroll_pattern`, one draw each from
      draw 1 on. */
  function ScrollAmounts(n: nat, draw: nat -> nat): (r: seq<int>)
    ensures |r| == n
    ensures forall i :: 0 <= i < n ==> r[i] == RandInt(200, 500, draw(1 + i))
  {
    seq(n, i requires 0 <= i < n => RandInt(200, 500, draw(1 + i)))
  }

  /** The pattern `generate_scroll_pattern` returns for the draws: the
      number of scrolls from draw 0, the amounts from the next draws, and
      one delay per position from the draws after those. */
  function ScrollPatternOf(pageHeight: int, draw: nat -> nat): ScrollPattern {
    var n := RandInt(5, 10, draw(0));
    ScrollPattern(Positions(pageHeight, ScrollAmounts(n, draw)), Some(ScrollDelaysOf(n, draw)))
  }

  /** One delay per position, from the draws after the amounts. */
  function ScrollDelaysOf(n: nat, draw: nat -> nat): (r: seq<real>)
    ensures |r| == n
    ensures forall i :: 0 <= i < n ==> r[i] == Uniform(0.5, 2.0, draw(1 + n + i))
  {
    seq(n, i requires 0 <= i < n => Uniform(0.5, 2.0, draw(1 + n + i)))
  }

  /** Five to ten positions with as many delays, each between half a second
      and two seconds; the positions scroll down the page by 200 to 500
      pixels at a time and stop at its height. */
  lemma ScrollPatternProperties(pageHeight: int, draw: nat -> nat)
    ensures var p := ScrollPatternOf(pageHeight, draw);
      && 5 <= |p.scrollPositions| <= 10
      && p.delaysSeconds.Some? && |p.delaysSeconds.value| == |p.scrollPositions|
      && (forall i :: 0 <= i < |p.delaysSeconds.value| ==> 0.5 <= p.delaysSeconds.value[i] <= 2.0)
      && Scrolls(p.scrollPositions, pageHeight, 200, 500)
  {
    var n := RandInt(5, 10, draw(0));
    PositionsScroll(pageHeight, ScrollAmounts(n, draw), 200, 500);
  }

  class HumanBehavior {
    const typingDelayMin: real
    const typingDelayMax: real

    constructor (typingDelayMin: real, typingDelayMax: real)
      ensures this.typingDelayMin == typingDelayMin && this.typingDelayMax == typingDelayMax
    {
      this.typingDelayMin := typingDelayMin;
      this.typingDelayMax := typingDelayMax;
    }

    /** `generate_mouse_movements`: `count` movements (none for a negative
        count), movement `i` drawn from draws `3i` to `3i + 2`. */
    method GenerateMouseMovements(count: int, draw: nat -> nat) returns (movements: seq<MouseMovement>)
      ensures |movements| == if count < 0 then 0 else count
      ensures forall i :: 0 <= i < |movements| ==>
        movements[i] == MouseMovement(RandInt(0, 1920, draw(3 * i)), RandInt(0, 1080, draw(3 * i + 1)),
                                      RandInt(100, 500, draw(3 * i + 2)))
      ensures forall i :: 0 <= i < |movements| ==>
        && 0 <= movements[i].x <= 1920 && 0 <= movements[i].y <= 1080
        && 100 <= movements[i].durationMs <= 500
    {
      movements := [];
      var k := 0;
      while k < count
        invariant 0 <= k && |movements| == k
        invariant k <= if count < 0 then 0 else count
        invariant forall i :: 0 <= i < k ==>
          movements[i] == MouseMovement(RandInt(0, 1920, draw(3 * i)), RandInt(0, 1080, draw(3 * i + 1)),
                                        RandInt(100, 500, draw(3 * i + 2)))
      {
        var movement := NewMouseMovement(RandInt(0, 1920, draw(3 * k)), RandInt(0, 1080, draw(3 * k + 1)),
                                         RandInt(100, 500, draw(3 * k + 2)));
        movements := movements + [movement.value];
        k := k + 1;
      }
    }

    /** `generate_scroll_pattern` */
    method GenerateScrollPattern(pageHeight: int, draw: nat -> nat) returns (pattern: ScrollPattern)
      ensures pattern == ScrollPatternOf(pageHeight, draw)
    {
      var numScrolls := RandInt(5, 10, draw(0));
      var positions := ScrollPositions(pageHeight, numScrolls, draw);
      var delays := ScrollDelays(numScrolls, draw);
      pattern := NewScrollPattern(positions, Some(delays)).value;
    }

    /** The positions loop of `generate_scroll_pattern`. */
    method ScrollPositions(pageHeight: int, numScrolls: nat, draw: nat -> nat) returns (positions: seq<int>)
      ensures positions == Positions(pageHeight, ScrollAmounts(numScrolls, draw))
    {
      ghost var amounts := ScrollAmounts(numScrolls, draw);
      positions := [];
      var currentPos := 0;
      var k := 0;
      while k < numScrolls
        invariant 0 <= k <= numScrolls
        invariant positions == Positions(pageHeight, amounts[..k])
        invariant currentPos == if k == 0 then 0 else positions[k - 1]
      {
        PositionsSnoc(pageHeight, amounts, k);
        var scrollAmount := RandInt(200, 500, draw(1 + k));
        assert scrollAmount == amounts[k];
        currentPos := Min(currentPos + scrollAmount, pageHeight);
        positions := positions + [currentPos];
        k := k + 1;
      }
      assert amounts[..k] == amounts;
    }

    /** The delays loop of `generate_scroll_pattern`: one delay per
        position, from the draws after the amounts. */
    method ScrollDelays(numScrolls: nat, draw: nat -> nat) returns (delays: seq<real>)
      ensures delays == ScrollDelaysOf(numScrolls, draw)
    {
      delays := [];
      var k := 0;
      while k < numScrolls
        invariant 0 <= k <= numScrolls
        invariant |delays| == k
        invariant forall i :: 0 <= i < k ==> delays[i] == Uniform(0.5, 2.0, draw(1 + numScrolls + i))
      {
        delays := delays + [Uniform(0.5, 2.0, draw(1 + numScrolls + k))];
        k := k + 1;
      }
    }
  }
}
