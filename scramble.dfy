/**
 * The hover scramble on labels that carry a `data-text` attribute: every
 * 30 ms the label shows its original text up to the iteration counter and
 * random capitals after it; the counter grows by a third each tick, and once
 * it reaches the text's length the original is shown and the interval stops.
 *
 * The counter is kept as a whole number of thirds, `thirds`, standing for
 * `iteration = thirds / 3`.
 */
module Scramble {

  const Letters: string := "ABCDEFGHIJKLMNOPQRSTUVWXYZ"

  /** The draws of `Math.random()` a tick makes, by text position. */
  type Draws = nat -> real

  /** `Math.random()` returns a number in [0, 1). */
  ghost predicate UnitDraws(random: Draws)
  {
    forall i :: 0.0 <= random(i) < 1.0
  }

  /** `letters[Math.floor(r * 26)]`. */
  function RandomLetter(r: real): (c: char)
    requires 0.0 <= r < 1.0
    ensures 'A' <= c <= 'Z'
  {
    var k := (r * 26.0).Floor;
    assert 0 <= k < 26;
    LetterAt(k);
    Letters[k]
  }

  lemma LetterAt(k: int)
    requires 0 <= k < |Letters|
    ensures Letters[k] as int == 'A' as int + k
  {
  }

  /**
   * The text a tick shows when the counter stands at `thirds` thirds:
   * position `index` shows the original character when `index < iteration`,
   * a random capital otherwise.
   */
  function Frame(original: string, thirds: nat, random: Draws): (shown: string)
    requires UnitDraws(random)
    ensures |shown| == |original|
    ensures forall i :: 0 <= i < |original| && 3 * i < thirds ==> shown[i] == original[i]
    ensures forall i :: 0 <= i < |original| && 3 * i >= thirds ==> 'A' <= shown[i] <= 'Z'
  {
    seq(|original|, i requires 0 <= i < |original| =>
      if (i as real) < thirds as real / 3.0 then original[i] else RandomLetter(random(i)))
  }

  /** Once the counter has reached the length, the frame is the original text, whatever the draws. */
  lemma FrameFinal(original: string, thirds: nat, random: Draws)
    requires UnitDraws(random) && thirds >= 3 * |original|
    ensures Frame(original, thirds, random) == original
  {
    var shown := Frame(original, thirds, random);
    assert forall i :: 0 <= i < |original| ==> shown[i] == original[i];
  }

  /**
   * The reveal never goes back: a position the frame at `thirds` shows from
   * the original is shown from the original by every later frame, whatever
   * its draws.
   */
  lemma RevealGrows(original: string, thirds: nat, later: nat, random: Draws, random': Draws, i: nat)
    requires UnitDraws(random) && UnitDraws(random')
    requires thirds <= later && i < |original| && 3 * i < thirds
    ensures Frame(original, later, random')[i] == original[i]
  {
  }

  /** `iteration >= originalText.length`, with the counter in thirds. */
  function Done(thirds: nat, length: nat): (done: bool)
    ensures done <==> thirds >= 3 * length
  {
    thirds as real / 3.0 >= length as real
  }

  /** An attribute that may be missing. */
  datatype Attr = Absent | Present(value: string)

  /** A label element: its `data-text`, its `data-scrambling` flag and its shown text. */
  class Element {
    const dataText: string
    var scrambling: Attr
    var innerText: string

    constructor(dataText: string, innerText: string)
      ensures this.dataText == dataText && this.innerText == innerText && scrambling == Absent
    {
      this.dataText := dataText;
      this.innerText := innerText;
      scrambling := Absent;
    }
  }

  /** One running interval: the label it writes, the text it reveals, its counter and whether it is still set. */
  class Scrambler {
    const target: Element
    const original: string
    var thirds: nat
    var running: bool

    /**
     * While running, the counter has not passed the length and the label is
     * flagged; once stopped, the counter is one tick past the length, the
     * flag is cleared and the label shows its original text.
     */
    ghost predicate Valid()
      reads this, target
    {
      original == target.dataText &&
      (running ==> thirds <= 3 * |original| && target.scrambling == Present("true")) &&
      (!running ==> thirds == 3 * |original| + 1 && target.scrambling == Present("false") && target.innerText == original)
    }

    constructor(target: Element)
      requires target.scrambling == Present("true")
      ensures this.target == target && original == target.dataText && thirds == 0 && running
      ensures Valid()
    {
      this.target := target;
      original := target.dataText;
      thirds := 0;
      running := true;
    }

    /** One firing of the interval. */
    method Tick(random: Draws)
      requires Valid() && running && UnitDraws(random)
      modifies this, target
      ensures Valid()
      ensures thirds == old(thirds) + 1
      ensures target.innerText == Frame(original, old(thirds), random)
      ensures running <==> old(thirds) < 3 * |original|
      ensures running ==> target.scrambling == old(target.scrambling)
    {
      target.innerText := Frame(original, thirds, random);
      if Done(thirds, |original|) {
        FrameFinal(original, thirds, random);
        running := false;
        target.scrambling := Present("false");
      }
      thirds := thirds + 1;
    }
  }

  /**
   * `scrambleText` on the resolved label (null when none was found): nothing
   * happens without a label or while its flag reads "true"; otherwise the
   * flag is set and a fresh interval starts at iteration 0.
   */
  method ScrambleText(target: Element?) returns (s: Scrambler?)
    modifies target
    ensures target == null ==> s == null
    ensures target != null && old(target.scrambling) == Present("true") ==> s == null && unchanged(target)
    ensures target != null && old(target.scrambling) != Present("true") ==>
      s != null && fresh(s) && s.target == target && s.Valid() && s.running && s.thirds == 0 &&
      target.innerText == old(target.innerText)
  {
    if target == null {
      return null;
    }
    if target.scrambling == Present("true") {
      return null;
    }
    target.scrambling := Present("true");
    s := new Scrambler(target);
  }

  /**
   * The interval left to run from its start: it fires exactly
   * `3 * length + 1` times, and the last tick leaves the original text and
   * the flag reset.
   */
  method Run(s: Scrambler, random: nat -> Draws) returns (ticks: nat)
    requires s.Valid() && s.running && s.thirds == 0
    requires forall t :: UnitDraws(random(t))
    modifies s, s.target
    ensures ticks == 3 * |s.original| + 1
    ensures s.Valid() && !s.running
    ensures s.target.innerText == s.original && s.target.scrambling == Present("false")
  {
    ticks := 0;
    while s.running
      invariant s.Valid()
      invariant s.thirds == ticks
      decreases 3 * |s.original| + 1 - s.thirds
    {
      s.Tick(random(ticks));
      ticks := ticks + 1;
    }
  }
}
