/** The overlay renderer of the object-detection demo: the detections the
    detector returns, the label text drawn for each category, the canvas
    commands that one box produces, and a canvas whose methods append those
    commands to a log, as the demo's drawBox and drawObjects issue them. */
module Overlay {

  datatype Option<T> = None | Some(value: T)

  /** A bounding box in frame pixels. */
  datatype Box = Box(originX: real, originY: real, width: real, height: real)

  /** One scored category of a detection. The score is kept as the text its
      two-decimal formatting produces, which this model does not compute. */
  datatype Category = Category(categoryName: string, index: int, scoreText: string)

  /** A detection: an optional bounding box and its categories, in order. */
  datatype Detection = Detection(boundingBox: Option<Box>, categories: seq<Category>)

  /** The 2D-context calls the renderer makes; styling calls are not modelled. */
  datatype Command =
    | ClearRect(x: real, y: real, w: real, h: real)
    | BeginPath
    | StrokeText(text: string, x: real, y: real)
    | MoveTo(x: real, y: real)
    | LineTo(x: real, y: real)
    | ClosePath
    | Stroke

  datatype Point = Point(x: real, y: real)

  /** One box to draw: the label of a category and the box of its detection. */
  datatype BoxJob = BoxJob(labelText: string, box: Box)

  // ---------------------------------------------------------------------
  // Decimal text of the category index

  predicate IsDigits(s: string) {
    forall i :: 0 <= i < |s| ==> '0' <= s[i] <= '9'
  }

  function DigitChar(d: nat): (c: char)
    requires d < 10
    ensures '0' <= c <= '9' && c as int - '0' as int == d
  {
    ('0' as int + d) as char
  }

  /** Decimal digits of n, most significant first. */
  function NatText(n: nat): (s: string)
    ensures |s| >= 1
    decreases n
  {
    if n < 10 then [DigitChar(n)] else NatText(n / 10) + [DigitChar(n % 10)]
  }

  /** How an integer is written in a template string: a minus sign, then digits. */
  function IntText(n: int): string {
    if n < 0 then "-" + NatText(-n) else NatText(n)
  }

  predicate IsIntText(s: string) {
    (|s| >= 1 && IsDigits(s)) || (|s| >= 2 && s[0] == '-' && IsDigits(s[1..]))
  }

  /** The value of a string of decimal digits (the reading direction of NatText). */
  function DigitsValue(s: string): nat
    requires IsDigits(s)
  {
    if s == [] then 0 else DigitsValue(s[..|s| - 1]) * 10 + (s[|s| - 1] as int - '0' as int)
  }

  function ParseIntText(s: string): int
    requires IsIntText(s)
  {
    if |s| >= 1 && s[0] == '-' then -(DigitsValue(s[1..]) as int) else DigitsValue(s)
  }

  /** NatText writes only digits, and no leading zero. */
  lemma {:induction false} NatTextDigits(n: nat)
    ensures IsDigits(NatText(n))
    ensures n > 0 ==> NatText(n)[0] != '0'
    decreases n
  {
    if n >= 10 {
      NatTextDigits(n / 10);
    }
  }

  lemma {:induction false} NatTextRoundTrip(n: nat)
    ensures IsDigits(NatText(n)) && DigitsValue(NatText(n)) == n
    decreases n
  {
    NatTextDigits(n);
    var s := NatText(n);
    if n >= 10 {
      NatTextRoundTrip(n / 10);
      assert s[..|s| - 1] == NatText(n / 10);
    }
  }

  /** Reading back the index text gives the index. */
  lemma IntTextRoundTrip(n: int)
    ensures IsIntText(IntText(n)) && ParseIntText(IntText(n)) == n
  {
    if n < 0 {
      NatTextRoundTrip(-n);
      assert IntText(n)[1..] == NatText(-n);
    } else {
      NatTextRoundTrip(n);
    }
  }

  /** The label of one category: name, index in parentheses, then the score. */
  function Label(c: Category): string {
    c.categoryName + " (" + IntText(c.index) + "): " + c.scoreText
  }

  // ---------------------------------------------------------------------
  // The commands of one box

  /** The calls drawBox makes: the label 8 px above the top-left corner, then
      a closed path through the four corners. */
  function BoxCommands(labelText: string, b: Box): seq<Command> {
    var x, y, w, h := b.originX, b.originY, b.width, b.height;
    [BeginPath,
     StrokeText(labelText, x, y - 8.0),
     MoveTo(x, y),
     LineTo(x + w, y),
     LineTo(x + w, y + h),
     LineTo(x, y + h),
     LineTo(x, y),
     ClosePath,
     Stroke]
  }

  /** The point a path command moves or draws to. */
  function CommandPoints(c: Command): seq<Point> {
    match c
    case MoveTo(x, y) => [Point(x, y)]
    case LineTo(x, y) => [Point(x, y)]
    case _ => []
  }

  /** The points that the path commands of cmds visit, in order. */
  function PathPoints(cmds: seq<Command>): seq<Point> {
    FlatMap(CommandPoints, cmds)
  }

  function Corners(b: Box): set<Point> {
    {Point(b.originX, b.originY), Point(b.originX + b.width, b.originY),
     Point(b.originX + b.width, b.originY + b.height), Point(b.originX, b.originY + b.height)}
  }

  function CommandTexts(c: Command): seq<Command> {
    if c.StrokeText? then [c] else []
  }

  /** The texts that cmds strokes, with their anchors. */
  function Texts(cmds: seq<Command>): seq<Command> {
    FlatMap(CommandTexts, cmds)
  }

  /** FlatMap over the nine commands of a box, one command at a time. */
  lemma BoxSteps<R>(f: Command -> seq<R>, labelText: string, b: Box)
    ensures var cmds := BoxCommands(labelText, b);
      FlatMap(f, cmds)
      == f(cmds[0]) + f(cmds[1]) + f(cmds[2]) + f(cmds[3]) + f(cmds[4]) + f(cmds[5]) + f(cmds[6]) + f(cmds[7]) + f(cmds[8])
  {
    var cmds := BoxCommands(labelText, b);
    assert cmds[..0] == [];
    FlatMapStep(f, cmds, 0);
    FlatMapStep(f, cmds, 1);
    FlatMapStep(f, cmds, 2);
    FlatMapStep(f, cmds, 3);
    FlatMapStep(f, cmds, 4);
    FlatMapStep(f, cmds, 5);
    FlatMapStep(f, cmds, 6);
    FlatMapStep(f, cmds, 7);
    FlatMapStep(f, cmds, 8);
    WholePrefix(cmds);
  }

  /** The five points of the box's path, from the top-left corner round and back. */
  lemma BoxPath(labelText: string, b: Box)
    ensures PathPoints(BoxCommands(labelText, b))
         == [Point(b.originX, b.originY), Point(b.originX + b.width, b.originY),
             Point(b.originX + b.width, b.originY + b.height), Point(b.originX, b.originY + b.height),
             Point(b.originX, b.originY)]
  {
    BoxSteps(CommandPoints, labelText, b);
  }

  /** The one text the box strokes. */
  lemma BoxTexts(labelText: string, b: Box)
    ensures Texts(BoxCommands(labelText, b)) == [StrokeText(labelText, b.originX, b.originY - 8.0)]
  {
    BoxSteps(CommandTexts, labelText, b);
  }

  /** A box is a closed path of four axis-parallel sides that visits exactly the
      corners of the box, and its one label sits at the left edge, 8 px above
      the top edge (canvas y grows downwards). */
  lemma BoxTracesRectangle(labelText: string, b: Box)
    ensures var pts := PathPoints(BoxCommands(labelText, b));
      && |pts| == 5
      && pts[0] == pts[4] == Point(b.originX, b.originY)
      && (forall i :: 0 <= i < 4 ==> pts[i].x == pts[i + 1].x || pts[i].y == pts[i + 1].y)
      && (forall i :: 0 <= i < 5 ==> pts[i] in Corners(b))
      && (forall c :: c in Corners(b) ==> c in pts)
    ensures var texts := Texts(BoxCommands(labelText, b));
      && |texts| == 1 && texts[0].StrokeText? && texts[0].text == labelText
      && (b.width >= 0.0 ==> forall c :: c in Corners(b) ==> texts[0].x <= c.x)
      && (b.height >= 0.0 ==> forall c :: c in Corners(b) ==> texts[0].y + 8.0 == b.originY <= c.y)
  {
    BoxPath(labelText, b);
    BoxTexts(labelText, b);
    var pts := PathPoints(BoxCommands(labelText, b));
    forall c | c in Corners(b) ensures c in pts {
      if c == pts[0] {
      } else if c == pts[1] {
      } else if c == pts[2] {
      } else {
        assert c == pts[3];
      }
    }
  }

  // ---------------------------------------------------------------------
  // The commands of a whole overlay

  /** The demo dereferences the box of a detection only while drawing one of
      its categories, so only a detection with categories needs a box. */
  predicate Drawable(d: Detection) {
    d.categories != [] ==> d.boundingBox.Some?
  }

  predicate AllDrawable(ds: seq<Detection>) {
    forall i :: 0 <= i < |ds| ==> Drawable(ds[i])
  }

  /** The boxes of one detection, one per category in category order. A
      detection without a box yields none; under Drawable it has no
      categories then, so this agrees with the demo wherever the demo does
      not fail. */
  function Jobs(d: Detection): (r: seq<BoxJob>)
    ensures d.boundingBox.Some? ==> |r| == |d.categories|
  {
    match d.boundingBox
    case None => []
    case Some(b) => seq(|d.categories|, j requires 0 <= j < |d.categories| => BoxJob(Label(d.categories[j]), b))
  }

  /** The number of (detection, category) pairs. */
  function CategoryCount(ds: seq<Detection>): nat {
    if ds == [] then 0 else CategoryCount(ds[..|ds| - 1]) + |ds[|ds| - 1].categories|
  }

  /** f applied to every element of s, the results concatenated in order. */
  function FlatMap<T, R>(f: T -> seq<R>, s: seq<T>): seq<R> {
    if s == [] then [] else FlatMap(f, s[..|s| - 1]) + f(s[|s| - 1])
  }

  /** The boxes of all detections, detection by detection. */
  function AllJobs(ds: seq<Detection>): seq<BoxJob> {
    FlatMap(Jobs, ds)
  }

  /** The commands of one box: its label drawn at its box. */
  function JobCommands(job: BoxJob): (r: seq<Command>)
    ensures |r| == 9
  {
    BoxCommands(job.labelText, job.box)
  }

  /** The commands of a sequence of boxes, box after box. */
  function Commands(jobs: seq<BoxJob>): seq<Command> {
    FlatMap(JobCommands, jobs)
  }

  /** What drawObjects issues: a clear of the whole canvas, then every box. */
  function OverlayCommands(ds: seq<Detection>, width: nat, height: nat): seq<Command> {
    [ClearRect(0.0, 0.0, width as real, height as real)] + Commands(AllJobs(ds))
  }

  lemma FlatMapStep<T, R>(f: T -> seq<R>, s: seq<T>, i: nat)
    requires i < |s|
    ensures FlatMap(f, s[..i + 1]) == FlatMap(f, s[..i]) + f(s[i])
  {
    TakeTake(s, i + 1, i);
  }

  lemma FlatMapAppend<T, R>(f: T -> seq<R>, s: seq<T>, x: T)
    ensures FlatMap(f, s + [x]) == FlatMap(f, s) + f(x)
  {
    TakeAppend(s, [x]);
  }

  lemma {:induction false} FlatMapConcat<T, R>(f: T -> seq<R>, a: seq<T>, b: seq<T>)
    ensures FlatMap(f, a + b) == FlatMap(f, a) + FlatMap(f, b)
    decreases |b|
  {
    if b == [] {
      ConcatEmpty(a);
      ConcatEmpty(FlatMap(f, a));
    } else {
      var n := |b| - 1;
      FlatMapConcat(f, a, b[..n]);
      TakeConcat(a, b, n);
      assert (a + b)[|a| + n] == b[n];
      calc {
        FlatMap(f, a + b);
        FlatMap(f, a + b[..n]) + f(b[n]);
        (FlatMap(f, a) + FlatMap(f, b[..n])) + f(b[n]);
        { ConcatAssoc(FlatMap(f, a), FlatMap(f, b[..n]), f(b[n])); }
        FlatMap(f, a) + (FlatMap(f, b[..n]) + f(b[n]));
        FlatMap(f, a) + FlatMap(f, b);
      }
    }
  }

  /** The results for s[i] sit right after those for s[..i]. */
  lemma {:induction false} FlatMapBlock<T, R>(f: T -> seq<R>, s: seq<T>, i: nat)
    requires i < |s|
    ensures |FlatMap(f, s[..i])| + |f(s[i])| <= |FlatMap(f, s)|
    ensures FlatMap(f, s)[|FlatMap(f, s[..i])| .. |FlatMap(f, s[..i])| + |f(s[i])|] == f(s[i])
  {
    var front, back := s[..i + 1], s[i + 1..];
    assert s == front + back;
    FlatMapConcat(f, front, back);
    FlatMapStep(f, s, i);
    var before, here := FlatMap(f, s[..i]), f(s[i]);
    SliceOfLeft(before + here, FlatMap(f, back), |before|, |before| + |here|);
    SliceOfRight(before, here);
  }

  /** When every result has m elements, s yields m * |s| of them. */
  lemma {:induction false} FlatMapUniform<T, R>(f: T -> seq<R>, s: seq<T>, m: nat)
    requires forall i :: 0 <= i < |s| ==> |f(s[i])| == m
    ensures |FlatMap(f, s)| == m * |s|
    decreases |s|
  {
    if s != [] {
      var n := |s| - 1;
      assert forall i :: 0 <= i < n ==> s[..n][i] == s[i];
      FlatMapUniform(f, s[..n], m);
      assert |f(s[n])| == m;
      assert m * |s| == m * n + m;
    }
  }

  lemma DetectionStep(ds: seq<Detection>, i: nat, start: seq<Command>, log0: seq<Command>, log1: seq<Command>)
    requires i < |ds|
    requires log0 == start + Commands(AllJobs(ds[..i]))
    requires log1 == log0 + Commands(Jobs(ds[i]))
    ensures log1 == start + Commands(AllJobs(ds[..i + 1]))
  {
    var done, next := AllJobs(ds[..i]), Jobs(ds[i]);
    FlatMapStep(Jobs, ds, i);
    FlatMapConcat(JobCommands, done, next);
    ConcatAssoc(start, Commands(done), Commands(next));
  }

  lemma LogStep(start: seq<Command>, before: seq<BoxJob>, job: BoxJob, log0: seq<Command>, log1: seq<Command>)
    requires log0 == start + Commands(before)
    requires log1 == log0 + JobCommands(job)
    ensures log1 == start + Commands(before + [job])
  {
    FlatMapAppend(JobCommands, before, job);
    ConcatAssoc(start, Commands(before), JobCommands(job));
  }

  /** There are as many boxes as (detection, category) pairs. */
  lemma {:induction false} AllJobsLength(ds: seq<Detection>)
    requires AllDrawable(ds)
    ensures |AllJobs(ds)| == CategoryCount(ds)
    decreases |ds|
  {
    if ds != [] {
      var prefix := ds[..|ds| - 1];
      assert AllDrawable(prefix);
      AllJobsLength(prefix);
      assert Drawable(ds[|ds| - 1]);
    }
  }

  /** The box of pair (i, j) is box number CategoryCount(ds[..i]) + j: it
      comes after every box of the detections before i. */
  lemma AllJobsAt(ds: seq<Detection>, i: nat, j: nat)
    requires AllDrawable(ds) && i < |ds| && j < |ds[i].categories|
    ensures |AllJobs(ds)| == CategoryCount(ds)
    ensures CategoryCount(ds[..i]) + j < CategoryCount(ds)
    ensures AllJobs(ds)[CategoryCount(ds[..i]) + j] == Jobs(ds[i])[j]
  {
    assert AllDrawable(ds[..i]);
    assert Drawable(ds[i]);
    AllJobsLength(ds);
    AllJobsLength(ds[..i]);
    FlatMapBlock(Jobs, ds, i);
    var n := |AllJobs(ds[..i])|;
    assert AllJobs(ds)[n + j] == AllJobs(ds)[n .. n + |Jobs(ds[i])|][j];
  }

  /** Box number k is drawn by commands 9k .. 9k + 9. */
  lemma CommandsAt(jobs: seq<BoxJob>, k: nat)
    requires k < |jobs|
    ensures |Commands(jobs)| == 9 * |jobs|
    ensures Commands(jobs)[9 * k .. 9 * k + 9] == JobCommands(jobs[k])
  {
    FlatMapBlock(JobCommands, jobs, k);
    FlatMapUniform(JobCommands, jobs, 9);
    FlatMapUniform(JobCommands, jobs[..k], 9);
  }

  /** The overlay is a full-canvas clear followed by 9 commands per
      (detection, category) pair. */
  lemma OverlayLength(ds: seq<Detection>, width: nat, height: nat)
    requires AllDrawable(ds)
    ensures |OverlayCommands(ds, width, height)| == 1 + 9 * CategoryCount(ds)
    ensures OverlayCommands(ds, width, height)[0] == ClearRect(0.0, 0.0, width as real, height as real)
  {
    var jobs := AllJobs(ds);
    AllJobsLength(ds);
    FlatMapUniform(JobCommands, jobs, 9);
  }

  /** Box number k of the overlay is drawn by commands 1 + 9k .. 1 + 9k + 9. */
  lemma OverlayBlock(ds: seq<Detection>, width: nat, height: nat, k: nat)
    requires k < |AllJobs(ds)|
    ensures 1 + 9 * k + 9 <= |OverlayCommands(ds, width, height)|
    ensures OverlayCommands(ds, width, height)[1 + 9 * k .. 1 + 9 * k + 9] == JobCommands(AllJobs(ds)[k])
  {
    var jobs := AllJobs(ds);
    var head := [ClearRect(0.0, 0.0, width as real, height as real)];
    var body := Commands(jobs);
    CommandsAt(jobs, k);
    Shifted(head, body, 9 * k, 9 * k + 9);
    assert OverlayCommands(ds, width, height) == head + body;
  }

  /** The commands after the clear draw one box per (detection, category)
      pair, in list order, each labelled with its category and drawn at its
      detection's box. */
  lemma OverlayShape(ds: seq<Detection>, width: nat, height: nat, i: nat, j: nat)
    requires AllDrawable(ds) && i < |ds| && j < |ds[i].categories|
    ensures 1 + 9 * (CategoryCount(ds[..i]) + j) + 9 <= |OverlayCommands(ds, width, height)|
    ensures OverlayCommands(ds, width, height)[1 + 9 * (CategoryCount(ds[..i]) + j) .. 1 + 9 * (CategoryCount(ds[..i]) + j) + 9]
         == BoxCommands(Label(ds[i].categories[j]), ds[i].boundingBox.value)
  {
    var k := CategoryCount(ds[..i]) + j;
    AllJobsAt(ds, i, j);
    OverlayBlock(ds, width, height, k);
    assert Drawable(ds[i]);
    assert Jobs(ds[i])[j] == BoxJob(Label(ds[i].categories[j]), ds[i].boundingBox.value);
  }

  lemma PrefixExtend<T>(s: seq<T>, j: nat)
    requires j < |s|
    ensures s[..j + 1] == s[..j] + [s[j]]
  {
  }

  lemma ConcatAssoc<T>(a: seq<T>, b: seq<T>, c: seq<T>)
    ensures (a + b) + c == a + (b + c)
  {
  }

  lemma WholePrefix<T>(s: seq<T>)
    ensures s[..|s|] == s
  {
  }

  lemma SliceOfLeft<T>(a: seq<T>, b: seq<T>, lo: nat, hi: nat)
    requires lo <= hi <= |a|
    ensures (a + b)[lo..hi] == a[lo..hi]
  {
  }

  lemma SliceOfRight<T>(a: seq<T>, b: seq<T>)
    ensures (a + b)[|a|..|a| + |b|] == b
  {
  }

  lemma TakeTake<T>(s: seq<T>, n: nat, i: nat)
    requires i <= n <= |s|
    ensures s[..n][..i] == s[..i]
  {
  }

  lemma TakeAppend<T>(a: seq<T>, b: seq<T>)
    ensures (a + b)[..|a|] == a
  {
  }

  lemma TakeConcat<T>(a: seq<T>, b: seq<T>, n: nat)
    requires n <= |b|
    ensures (a + b)[..|a| + n] == a + b[..n]
  {
  }

  lemma ConcatEmpty<T>(a: seq<T>)
    ensures a + [] == a
  {
  }

  lemma Shifted<T>(head: seq<T>, body: seq<T>, lo: nat, hi: nat)
    requires lo <= hi <= |body|
    ensures (head + body)[|head| + lo .. |head| + hi] == body[lo..hi]
  {
  }

  // ---------------------------------------------------------------------
  // The canvas

  /** The 2D drawing surface, sized to the video once, with the log of the
      commands issued on it. */
  class Canvas {
    const width: nat
    const height: nat
    var log: seq<Command>

    constructor (width: nat, height: nat)
      ensures this.width == width && this.height == height && log == []
    {
      this.width := width;
      this.height := height;
      log := [];
    }

    /** drawBox: one labelled rectangle. */
    method DrawBox(labelText: string, x: real, y: real, w: real, h: real)
      modifies this
      ensures log == old(log) + BoxCommands(labelText, Box(x, y, w, h))
    {
      log := log + [BeginPath];
      log := log + [StrokeText(labelText, x, y - 8.0)];
      log := log + [MoveTo(x, y)];
      log := log + [LineTo(x + w, y)];
      log := log + [LineTo(x + w, y + h)];
      log := log + [LineTo(x, y + h)];
      log := log + [LineTo(x, y)];
      log := log + [ClosePath];
      log := log + [Stroke];
    }

    /** drawObjects: clear the canvas, then one box per category of every
        detection, at that detection's box. */
    method DrawObjects(ds: seq<Detection>)
      requires AllDrawable(ds)
      modifies this
      ensures log == old(log) + OverlayCommands(ds, width, height)
    {
      log := log + [ClearRect(0.0, 0.0, width as real, height as real)];
      ghost var start := log;
      var i := 0;
      while i < |ds|
        invariant 0 <= i <= |ds|
        invariant log == start + Commands(AllJobs(ds[..i]))
      {
        var d := ds[i];
        assert Drawable(d);
        ghost var mid := log;
        ghost var jobs := Jobs(d);
        var j := 0;
        while j < |d.categories|
          invariant 0 <= j <= |d.categories|
          invariant log == mid + Commands(jobs[..j])
        {
          var box := d.boundingBox.value;
          var category := d.categories[j];
          ghost var logBefore := log;
          DrawBox(Label(category), box.originX, box.originY, box.width, box.height);
          LogStep(mid, jobs[..j], jobs[j], logBefore, log);
          PrefixExtend(jobs, j);
          j := j + 1;
        }
        WholePrefix(jobs);
        DetectionStep(ds, i, start, mid, log);
        i := i + 1;
      }
      WholePrefix(ds);
      ConcatAssoc(old(log), [ClearRect(0.0, 0.0, width as real, height as real)], Commands(AllJobs(ds)));
    }
  }
}
