/** Utilities of general interest (openquake/utils/general.py): the
    singleton class decorator, the memoizing wrapper keyed by the pickled
    arguments, and the textual progress bar. Instances produced by a
    decorated class, the wrapped function and the pickling of arguments are
    parameters; progress values are real numbers. */
module GeneralUtils {
  import opened Strings

  // ------------------------------------------------------------ singleton

  /** An object produced by calling a decorated class. */
  class Instance {
    const cls: string

    constructor (cls: string)
      ensures this.cls == cls
    {
      this.cls := cls;
    }
  }

  /** singleton(cls): the getinstance closure together with the instances
      dictionary it captures. */
  class Singleton {
    const cls: string
    var instances: map<string, Instance>
    /** How many times cls() has been called. */
    ghost var constructed: nat

    /** Only cls is ever a key, it maps to an object of cls, and cls() has
        run exactly once if and only if an instance is cached. */
    ghost predicate Valid()
      reads this, instances.Values
    {
      instances.Keys <= {cls} &&
      (cls in instances ==> instances[cls].cls == cls) &&
      constructed == (if cls in instances then 1 else 0)
    }

    constructor (cls: string)
      ensures this.cls == cls && instances == map[] && constructed == 0
      ensures Valid()
    {
      this.cls := cls;
      instances := map[];
      constructed := 0;
    }

    /** getinstance(): a cached instance is returned as it is; otherwise cls()
        is called once and its result cached. */
    method GetInstance() returns (r: Instance)
      requires Valid()
      modifies this
      ensures Valid()
      ensures cls in instances && r == instances[cls] && r.cls == cls
      ensures constructed <= 1
      ensures cls in old(instances) ==>
        instances == old(instances) && constructed == old(constructed) && r == old(instances)[cls]
      ensures cls !in old(instances) ==>
        fresh(r) && instances == old(instances)[cls := r] && constructed == old(constructed) + 1
    {
      if cls !in instances {
        var made := new Instance(cls);
        instances := instances[cls := made];
        constructed := constructed + 1;
      }
      r := instances[cls];
    }
  }

  /** Two calls of getinstance() hand out the same object, and cls() has run
      once. */
  method GetInstanceTwice(s: Singleton) returns (first: Instance, second: Instance)
    requires s.Valid()
    modifies s
    ensures s.Valid() && first == second && s.constructed == 1
    ensures s.cls in s.instances && s.instances[s.cls] == first
  {
    first := s.GetInstance();
    second := s.GetInstance();
  }

  // ------------------------------------------------------------ memoize

  /** MemoizeMutable(fun): fun with a memo dictionary keyed by keyOf(args),
      the pickled form of the arguments. */
  class MemoizeMutable<Args(!new), Key(==), V> {
    const fun: Args -> V
    const keyOf: Args -> Key
    var memo: map<Key, V>
    /** The arguments whose call filled each memo entry. */
    ghost var filledBy: map<Key, Args>
    /** How many times fun has been called. */
    ghost var calls: nat

    /** Every entry is fun applied to arguments with that key. */
    ghost predicate Valid()
      reads this
    {
      filledBy.Keys == memo.Keys &&
      (forall k :: k in memo ==> keyOf(filledBy[k]) == k && memo[k] == fun(filledBy[k]))
    }

    constructor (fun: Args -> V, keyOf: Args -> Key)
      ensures this.fun == fun && this.keyOf == keyOf
      ensures memo == map[] && calls == 0 && Valid()
    {
      this.fun := fun;
      this.keyOf := keyOf;
      memo := map[];
      filledBy := map[];
      calls := 0;
    }

    /** __call__(*args): a first call for a key stores fun(args); a later call
        with the same key returns the stored value without calling fun. */
    method Call(args: Args) returns (r: V)
      requires Valid()
      modifies this
      ensures Valid()
      ensures keyOf(args) in memo && r == memo[keyOf(args)]
      ensures forall k :: k in old(memo) ==> k in memo && memo[k] == old(memo)[k]
      ensures keyOf(args) in old(memo) ==>
        memo == old(memo) && calls == old(calls) && r == old(memo)[keyOf(args)]
      ensures keyOf(args) !in old(memo) ==>
        memo == old(memo)[keyOf(args) := fun(args)] && calls == old(calls) + 1 && r == fun(args)
      ensures KeyDetermines(fun, keyOf) ==> r == fun(args)
    {
      var key := keyOf(args);
      if key !in memo {
        memo := memo[key := fun(args)];
        filledBy := filledBy[key := args];
        calls := calls + 1;
      }
      r := memo[key];
    }
  }

  /** Arguments with equal keys give equal results. */
  ghost predicate KeyDetermines<Args(!new), Key, V>(fun: Args -> V, keyOf: Args -> Key) {
    forall a, b :: keyOf(a) == keyOf(b) ==> fun(a) == fun(b)
  }

  // ------------------------------------------------------------ progress bar

  /** Python's int() on a float: truncation toward zero. */
  function Truncate(x: real): (n: int)
    ensures 0.0 <= x ==> 0 <= n && n as real <= x < n as real + 1.0
    ensures x < 0.0 ==> n <= 0 && n as real - 1.0 < x <= n as real
  {
    if 0.0 <= x then x.Floor else -((-x).Floor)
  }

  /** n * s for a string s and an integer n: empty when n is not positive. */
  function Repeat(s: string, n: int): (r: string)
    ensures |r| == if n <= 0 then 0 else n * |s|
    ensures forall i :: 0 <= i < |r| ==> r[i] in s
  {
    if n <= 0 then [] else s + Repeat(s, n - 1)
  }

  /** The default out_format '[%(fill)s>%(blank)s] %(progress)s%%'. */
  function DefaultOutFormat(fill: string, blank: string, progress: int): string {
    "[" + fill + ">" + blank + "] " + IntToString(progress) + "%"
  }

  /** _get_progress: an increment measured in percent of end. */
  function ProgressOf(increment: real, end: real): (p: real)
    requires end != 0.0
    ensures p * end == increment * 100.0
  {
    increment * 100.0 / end
  }

  /** The progress after __add__: the increment is added while the sum stays
      below 100, and the progress is capped at 100 otherwise. */
  function Advanced(progress: real, increment: real, end: real): (p: real)
    requires end != 0.0
    ensures p <= 100.0
    ensures progress + ProgressOf(increment, end) < 100.0 ==> p == progress + ProgressOf(increment, end)
    ensures 100.0 <= progress + ProgressOf(increment, end) ==> p == 100.0
  {
    var next := progress + ProgressOf(increment, end);
    if 100.0 > next then next else 100.0
  }

  /** int(progress / step): the number of filled units. */
  function Progressed(progress: real, step: real): int
    requires step != 0.0
  {
    Truncate(progress / step)
  }

  /** The step of a bar of the given width: 100 / float(width). */
  function StepOf(width: int): (step: real)
    requires width != 0
    ensures step * (width as real) == 100.0
  {
    100.0 / (width as real)
  }

  /** The text __str__ produces through the given out_format. */
  function Render(outFormat: (string, string, int) -> string, fill: string, blank: string,
                  width: int, step: real, progress: real): string
    requires step != 0.0
  {
    var progressed := Progressed(progress, step);
    outFormat(Repeat(fill, progressed), Repeat(blank, width - progressed), Truncate(progress))
  }

  /** ProgressBar: the options and the current progress in percent. */
  class ProgressBar {
    const start: real
    const end: real
    const width: int
    const fill: string
    const blank: string
    const outFormat: (string, string, int) -> string
    const step: real
    var progress: real

    ghost predicate Valid()
      reads this
    {
      end != 0.0 && width != 0 && step == StepOf(width)
    }

    /** ProgressBar(start, end, width, fill, blank, out_format): the options are
        stored, reset() runs, and then progress is set to the raw start. */
    constructor (start: real, end: real, width: int, fill: string, blank: string,
                 outFormat: (string, string, int) -> string)
      requires end != 0.0 && width != 0
      ensures this.start == start && this.end == end && this.width == width
      ensures this.fill == fill && this.blank == blank && this.outFormat == outFormat
      ensures Valid() && progress == start
    {
      this.start := start;
      this.end := end;
      this.width := width;
      this.fill := fill;
      this.blank := blank;
      this.outFormat := outFormat;
      step := StepOf(width);
      new;
      var _ := Reset();
      progress := start;
    }

    /** The same options, with the start state measured in percent of end as
        the class documentation describes. */
    constructor Proportional(start: real, end: real, width: int, fill: string, blank: string,
                             outFormat: (string, string, int) -> string)
      requires end != 0.0 && width != 0
      ensures this.start == start && this.end == end && this.width == width
      ensures this.fill == fill && this.blank == blank && this.outFormat == outFormat
      ensures Valid() && progress == ProgressOf(start, end)
    {
      this.start := start;
      this.end := end;
      this.width := width;
      this.fill := fill;
      this.blank := blank;
      this.outFormat := outFormat;
      step := StepOf(width);
      new;
      var _ := Reset();
    }

    /** _get_progress(increment). */
    function GetProgress(increment: real): (p: real)
      requires Valid()
      reads this
      ensures p * end == increment * 100.0
    {
      ProgressOf(increment, end)
    }

    /** __add__(increment): advances the progress, capped at 100, and returns
        the bar itself. */
    method Add(increment: real) returns (r: ProgressBar)
      requires Valid()
      modifies this
      ensures r == this && Valid()
      ensures progress == Advanced(old(progress), increment, end)
    {
      var inc := GetProgress(increment);
      if 100.0 > progress + inc {
        progress := progress + inc;
      } else {
        progress := 100.0;
      }
      r := this;
    }

    /** reset(): the progress returns to the start state, in percent of end. */
    method Reset() returns (r: ProgressBar)
      requires Valid()
      modifies this
      ensures r == this && Valid()
      ensures progress == ProgressOf(start, end)
    {
      progress := GetProgress(start);
      r := this;
    }

    /** __str__ (and __repr__): the bar filled to int(progress / step) units,
        which for a progress between 0 and 100 on a bar of positive width is
        between none and all of its width. */
    function ToString(): (s: string)
      requires Valid()
      reads this
      ensures var k := Progressed(progress, step);
        s == outFormat(Repeat(fill, k), Repeat(blank, width - k), Truncate(progress))
      ensures 0 < width && 0.0 <= progress <= 100.0 ==>
        var k := Progressed(progress, step);
        0 <= k <= width &&
        (|fill| == 1 && |blank| == 1 ==> |Repeat(fill, k)| + |Repeat(blank, width - k)| == width)
    {
      if 0 < width && 0.0 <= progress <= 100.0 then
        ProgressedInRange(progress, width);
        Render(outFormat, fill, blank, width, step, progress)
      else
        Render(outFormat, fill, blank, width, step, progress)
    }
  }

  /** The bar's defaults: ProgressBar() with start 0, end 10, width 12, '=' and '.'. */
  method DefaultProgressBar() returns (b: ProgressBar)
    ensures fresh(b) && b.Valid()
    ensures b.start == 0.0 && b.end == 10.0 && b.width == 12 && b.fill == "=" && b.blank == "."
    ensures b.outFormat == DefaultOutFormat && b.progress == 0.0
  {
    b := new ProgressBar(0.0, 10.0, 12, "=", ".", DefaultOutFormat);
  }

  // ------------------------------------------------------------ progress lemmas

  /** Increments add up: _get_progress is linear in the increment. */
  lemma {:induction false} ProgressOfAdds(a: real, b: real, end: real)
    requires end != 0.0
    ensures ProgressOf(a + b, end) == ProgressOf(a, end) + ProgressOf(b, end)
  {
    var pa, pb, pab := ProgressOf(a, end), ProgressOf(b, end), ProgressOf(a + b, end);
    assert (pab - pa - pb) * end == 0.0;
  }

  /** The whole range: an increment of end is 100 percent, of 0 is none. */
  lemma ProgressOfWholeRange(end: real)
    requires end != 0.0
    ensures ProgressOf(end, end) == 100.0 && ProgressOf(0.0, end) == 0.0
  {
  }

  /** A non-negative increment never moves a progress of at most 100 back. */
  lemma AdvancedIsMonotone(progress: real, increment: real, end: real)
    requires end != 0.0 && progress <= 100.0 && 0.0 <= ProgressOf(increment, end)
    ensures progress <= Advanced(progress, increment, end)
  {
  }

  /** Two non-negative increments in a row act as their sum: the cap is
      reached at the same point either way. */
  lemma AdvancedTwice(progress: real, a: real, b: real, end: real)
    requires end != 0.0 && 0.0 <= ProgressOf(a, end) && 0.0 <= ProgressOf(b, end)
    ensures Advanced(Advanced(progress, a, end), b, end) == Advanced(progress, a + b, end)
  {
    ProgressOfAdds(a, b, end);
  }

  /** A full bar stays full under a non-negative increment. */
  lemma FullStaysFull(increment: real, end: real)
    requires end != 0.0 && 0.0 <= ProgressOf(increment, end)
    ensures Advanced(100.0, increment, end) == 100.0
  {
  }

  /** For a progress between 0 and 100 on a bar of positive width, the filled
      units lie between 0 and width: none at 0 and all of them at 100. */
  lemma ProgressedInRange(progress: real, width: int)
    requires 0 < width && 0.0 <= progress <= 100.0
    ensures 0 <= Progressed(progress, StepOf(width)) <= width
    ensures progress == 0.0 ==> Progressed(progress, StepOf(width)) == 0
    ensures progress == 100.0 ==> Progressed(progress, StepOf(width)) == width
  {
    var step := StepOf(width);
    var w := width as real;
    assert step > 0.0;
    var q := progress / step;
    assert q * step == progress;
    assert q == progress * w / 100.0 by {
      assert (progress * w / 100.0) * step == progress * (w * step) / 100.0;
    }
    assert 0.0 <= q <= w;
    if progress == 100.0 {
      assert q == w;
    }
  }

  /** With one-character fill and blank strings, a bar whose progress lies
      between 0 and 100 is exactly width characters wide between its
      brackets: progressed fill characters, then the blanks. */
  lemma {:induction false} RenderedBarWidth(fill: char, blank: char, width: int, progress: real)
    requires 0 < width && 0.0 <= progress <= 100.0
    ensures var k := Progressed(progress, StepOf(width));
      var s := Render(DefaultOutFormat, [fill], [blank], width, StepOf(width), progress);
      0 <= k <= width &&
      s == "[" + Repeat([fill], k) + ">" + Repeat([blank], width - k) + "] " + IntToString(Truncate(progress)) + "%" &&
      |Repeat([fill], k)| + |Repeat([blank], width - k)| == width
  {
    ProgressedInRange(progress, width);
  }

  /** The state 5 of 10 is 50 percent, as the class documentation says, while
      the constructor as written leaves the progress at 5. */
  lemma StartFiveOfTen()
    ensures ProgressOf(5.0, 10.0) == 50.0
    ensures ProgressOf(5.0, 10.0) != 5.0
  {
  }

  /** A bar built as documented starts at start / end of the way, so the start
      state end is a full bar and the start state 0 an empty one. */
  lemma ProportionalStart(start: real, end: real, width: int)
    requires end != 0.0 && 0 < width
    ensures ProgressOf(start, end) * end == start * 100.0
    ensures start == end ==> Progressed(ProgressOf(start, end), StepOf(width)) == width
    ensures start == 0.0 ==> Progressed(ProgressOf(start, end), StepOf(width)) == 0
  {
    if start == end {
      ProgressOfWholeRange(end);
      ProgressedInRange(100.0, width);
    } else if start == 0.0 {
      ProgressOfWholeRange(end);
      ProgressedInRange(0.0, width);
    }
  }
}
