/** Decoding of raw YOLOX predictions: one candidate row per cell of one grid per stride. */
module Decoder {
  import opened Sequences
  import opened Geometry
  import opened Suppression

  /** The exponential function is known here only as a function with positive values. */
  type Exponential = f: real -> real | forall x :: f(x) > 0.0 witness (x: real) => 1.0

  datatype ModelSpec = ModelSpec(inputWidth: nat, inputHeight: nat, strides: seq<int>, classCount: nat) {
    predicate Valid() {
      forall k :: 0 <= k < |strides| ==> strides[k] > 0
    }

    function ValuesPerCandidate(): nat {
      5 + classCount
    }

    function GridWidth(k: nat): nat
      requires Valid() && k < |strides|
    {
      inputWidth / strides[k]
    }

    function GridHeight(k: nat): nat
      requires Valid() && k < |strides|
    {
      inputHeight / strides[k]
    }

    function CellCount(k: nat): nat
      requires Valid() && k < |strides|
    {
      GridWidth(k) * GridHeight(k)
    }

    /** Number of candidates that belong to the strides before the k-th. */
    function Base(k: nat): nat
      requires Valid() && k <= |strides|
    {
      if k == 0 then 0 else Base(k - 1) + CellCount(k - 1)
    }

    function CandidateCount(): nat
      requires Valid()
    {
      Base(|strides|)
    }

    /** Number of values in the prediction buffer of one image. */
    function BufferSize(): nat
      requires Valid()
    {
      CandidateCount() * ValuesPerCandidate()
    }
  }

  const YOLOX_NANO := ModelSpec(416, 416, [8, 16, 32], 80)

  /** A stride contributes one candidate for each cell of its grid. */
  lemma NextBase(m: ModelSpec, k: nat, gridWidth: nat, gridHeight: nat)
    requires m.Valid() && k < |m.strides|
    requires gridWidth == m.inputWidth / m.strides[k] && gridHeight == m.inputHeight / m.strides[k]
    ensures m.Base(k + 1) == m.Base(k) + gridWidth * gridHeight
  {
  }

  lemma NoBase(m: ModelSpec)
    requires m.Valid()
    ensures m.Base(0) == 0
  {
  }

  method ComputeCandidateCount(m: ModelSpec) returns (count: nat)
    requires m.Valid()
    ensures count == m.CandidateCount()
  {
    hide ModelSpec.Base;
    assert m.Base(0) == 0 by {
      NoBase(m);
    }
    count := 0;
    for k := 0 to |m.strides|
      invariant count == m.Base(k)
    {
      var gridWidth, gridHeight := m.inputWidth / m.strides[k], m.inputHeight / m.strides[k];
      NextBase(m, k, gridWidth, gridHeight);
      count := count + gridWidth * gridHeight;
    }
  }

  lemma YoloxNanoHas3549Candidates()
    ensures YOLOX_NANO.Valid() && YOLOX_NANO.CandidateCount() == 3549 && YOLOX_NANO.ValuesPerCandidate() == 85
  {
    assert YOLOX_NANO.Base(1) == 52 * 52;
    assert YOLOX_NANO.Base(2) == 52 * 52 + 26 * 26;
    assert YOLOX_NANO.Base(3) == 52 * 52 + 26 * 26 + 13 * 13;
  }

  // ----- the cell a candidate row belongs to

  datatype Cell = Cell(level: nat, gridX: nat, gridY: nat)

  predicate OnGrid(m: ModelSpec, c: Cell)
    requires m.Valid()
  {
    && c.level < |m.strides|
    && c.gridX < m.inputWidth / m.strides[c.level]
    && c.gridY < m.inputHeight / m.strides[c.level]
  }

  function IndexOf(m: ModelSpec, c: Cell): nat
    requires m.Valid() && OnGrid(m, c)
  {
    m.Base(c.level) + c.gridY * m.GridWidth(c.level) + c.gridX
  }

  /** The cell of row `i`, found by locating the stride whose block of rows holds `i`. */
  function CellAt(m: ModelSpec, k: nat, i: nat): (c: Cell)
    requires m.Valid() && k <= |m.strides| && i < m.Base(k)
    ensures c.level < k
  {
    if i < m.Base(k - 1) then CellAt(m, k - 1, i)
    else
      var w := m.GridWidth(k - 1);
      if w == 0 then Cell(k - 1, 0, 0)
      else Cell(k - 1, (i - m.Base(k - 1)) % w, (i - m.Base(k - 1)) / w)
  }

  function CellOfRow(m: ModelSpec, i: nat): Cell
    requires m.Valid() && i < m.CandidateCount()
  {
    CellAt(m, |m.strides|, i)
  }

  lemma {:induction false} ProductMonotone(a: nat, b: nat, c: nat)
    requires a <= b
    ensures a * c <= b * c
  {
    if c > 0 {
      ProductMonotone(a, b, c - 1);
      assert a * c == a * (c - 1) + a && b * c == b * (c - 1) + b;
    }
  }

  lemma NextMultiple(a: int, c: int)
    ensures (a + 1) * c == a * c + c
  {
  }

  lemma GridIndexBound(x: nat, y: nat, w: nat, h: nat)
    requires x < w && y < h
    ensures y * w + x < w * h
    ensures (y * w + x) % w == x && (y * w + x) / w == y
  {
    NextMultiple(y, w);
    ProductMonotone(y + 1, h, w);
    RemainderUnique(y * w + x, w, y, x);
  }

  lemma RemainderUnique(n: nat, w: nat, q: nat, r: nat)
    requires n == q * w + r && r < w
    ensures n / w == q && n % w == r
  {
    var q', r' := n / w, n % w;
    assert n == q' * w + r';
    if q < q' {
      NextMultiple(q, w);
      ProductMonotone(q + 1, q', w);
    }
    if q' < q {
      NextMultiple(q', w);
      ProductMonotone(q' + 1, q, w);
    }
  }

  lemma GridIndexSplit(n: nat, w: nat, h: nat)
    requires n < w * h
    ensures w > 0 && n / w < h && n % w < w && n == n / w * w + n % w
  {
    if w > 0 && n / w >= h {
      ProductMonotone(h, n / w, w);
    }
  }

  lemma {:induction false} BaseMonotone(m: ModelSpec, j: nat, k: nat)
    requires m.Valid() && j <= k <= |m.strides|
    ensures m.Base(j) <= m.Base(k)
  {
    if j < k {
      hide ModelSpec.CellCount;
      BaseMonotone(m, j, k - 1);
    }
  }

  lemma {:induction false} CellAtIndex(m: ModelSpec, k: nat, c: Cell)
    requires m.Valid() && k <= |m.strides| && OnGrid(m, c) && c.level < k
    ensures IndexOf(m, c) < m.Base(k) && CellAt(m, k, IndexOf(m, c)) == c
  {
    GridIndexBound(c.gridX, c.gridY, m.GridWidth(c.level), m.GridHeight(c.level));
    if c.level < k - 1 {
      CellAtIndex(m, k - 1, c);
    }
  }

  lemma {:induction false} IndexOfCellAt(m: ModelSpec, k: nat, i: nat)
    requires m.Valid() && k <= |m.strides| && i < m.Base(k)
    ensures OnGrid(m, CellAt(m, k, i)) && IndexOf(m, CellAt(m, k, i)) == i
  {
    if i < m.Base(k - 1) {
      IndexOfCellAt(m, k - 1, i);
    } else {
      GridIndexSplit(i - m.Base(k - 1), m.GridWidth(k - 1), m.GridHeight(k - 1));
    }
  }

  /** Grid cells and candidate rows correspond one to one. */
  lemma CellsAndRowsCorrespond(m: ModelSpec, c: Cell, i: nat)
    requires m.Valid()
    ensures OnGrid(m, c) ==> IndexOf(m, c) < m.CandidateCount() && CellOfRow(m, IndexOf(m, c)) == c
    ensures i < m.CandidateCount() ==> OnGrid(m, CellOfRow(m, i)) && IndexOf(m, CellOfRow(m, i)) == i
  {
    if OnGrid(m, c) {
      CellAtIndex(m, |m.strides|, c);
    }
    if i < m.CandidateCount() {
      IndexOfCellAt(m, |m.strides|, i);
    }
  }

  // ----- one candidate row

  datatype Best = Best(classId: int, score: real)

  function ClassScore(row: seq<real>, c: nat): real
    requires 5 + c < |row|
  {
    row[4] * row[5 + c]
  }

  function BestClass(row: seq<real>, n: nat): Best
    requires 5 + n <= |row|
  {
    if n == 0 then Best(-1, 0.0)
    else
      var b := BestClass(row, n - 1);
      if ClassScore(row, n - 1) > b.score then Best(n - 1, ClassScore(row, n - 1)) else b
  }

  /** `b` names the lowest-numbered class of maximal score, or no class when no score is positive. */
  ghost predicate IsArgMax(row: seq<real>, n: nat, b: Best)
    requires 5 + n <= |row|
  {
    if b.classId < 0
    then b == Best(-1, 0.0) && forall c: nat :: c < n ==> ClassScore(row, c) <= 0.0
    else
      && b.classId < n
      && b.score == ClassScore(row, b.classId) > 0.0
      && (forall c: nat :: c < n ==> ClassScore(row, c) <= b.score)
      && (forall c: nat :: c < b.classId ==> ClassScore(row, c) < b.score)
  }

  lemma {:induction false} BestClassIsArgMax(row: seq<real>, n: nat, b: Best)
    requires 5 + n <= |row|
    ensures IsArgMax(row, n, b) <==> b == BestClass(row, n)
  {
    hide ClassScore;
    if n > 0 {
      var prev := BestClass(row, n - 1);
      BestClassIsArgMax(row, n - 1, prev);
      assert IsArgMax(row, n, BestClass(row, n));
    }
  }

  /** The first column of greatest positive score, in terms of the row itself; a negative class stands for none. */
  ghost predicate BestOfRow(row: seq<real>, classId: int, score: real)
    requires |row| >= 5
  {
    if classId < 0
    then forall j :: 5 <= j < |row| ==> row[4] * row[j] <= 0.0
    else
      && classId < |row| - 5 && score == row[4] * row[5 + classId] && score > 0.0
      && (forall j :: 5 <= j < |row| ==> row[4] * row[j] <= score)
      && (forall j :: 5 <= j < 5 + classId ==> row[4] * row[j] < score)
  }

  lemma ArgMaxIsBest(row: seq<real>, b: Best)
    requires |row| >= 5 && IsArgMax(row, |row| - 5, b)
    ensures BestOfRow(row, b.classId, b.score)
  {
    forall j | 5 <= j < |row|
      ensures row[4] * row[j] <= if b.classId < 0 then 0.0 else b.score
      ensures j < 5 + b.classId ==> row[4] * row[j] < b.score
    {
      var c: nat := j - 5;
      assert row[4] * row[j] == ClassScore(row, c);
    }
  }

  method FindBestClass(row: seq<real>, classCount: nat) returns (bestClassId: int, bestScore: real)
    requires |row| == 5 + classCount
    ensures IsArgMax(row, classCount, Best(bestClassId, bestScore)) && BestOfRow(row, bestClassId, bestScore)
  {
    bestClassId, bestScore := -1, 0.0;
    for classId := 0 to classCount
      invariant IsArgMax(row, classId, Best(bestClassId, bestScore))
    {
      var score := row[4] * row[5 + classId];
      if score > bestScore {
        bestScore := score;
        bestClassId := classId;
      }
    }
    hide IsArgMax, BestOfRow;
    ArgMaxIsBest(row, Best(bestClassId, bestScore));
  }

  function Center(offset: real, gridIndex: nat, stride: int): real {
    (offset + gridIndex as real) * stride as real
  }

  function Extent(logSize: real, stride: int, exp: Exponential): real {
    exp(logSize) * stride as real
  }

  /** The predicted box in the coordinates of the resized image. */
  function RawBox(row: seq<real>, stride: int, gridX: nat, gridY: nat, exp: Exponential): BoundingBox
    requires |row| >= 5
  {
    var width := Extent(row[2], stride, exp);
    var height := Extent(row[3], stride, exp);
    BoundingBox(Center(row[0], gridX, stride) - width / 2.0, Center(row[1], gridY, stride) - height / 2.0,
                width, height)
  }

  function DecodeBox(row: seq<real>, stride: int, gridX: nat, gridY: nat, scale: real, exp: Exponential): BoundingBox
    requires |row| >= 5 && scale > 0.0
  {
    var raw := RawBox(row, stride, gridX, gridY, exp);
    BoundingBox(raw.x / scale, raw.y / scale, raw.width / scale, raw.height / scale)
  }

  /** What a row contributes: its best class must score, reach the threshold and come with a real box. */
  function DecodeRow(row: seq<real>, stride: int, gridX: nat, gridY: nat,
                     scale: real, threshold: real, exp: Exponential): Option<Detection>
    requires |row| >= 5 && scale > 0.0
  {
    var best := BestClass(row, |row| - 5);
    if best.classId < 0 || best.score < threshold then None
    else
      var box := DecodeBox(row, stride, gridX, gridY, scale, exp);
      if box.Positive() then Some(Detection(box, best.classId, best.score)) else None
  }

  /** Division of a positive number by a positive number. */
  lemma PositiveQuotient(a: real, b: real)
    requires a > 0.0 && b > 0.0
    ensures a / b > 0.0
  {
  }

  lemma ExtentIsPositive(logSize: real, stride: int, exp: Exponential)
    requires stride > 0
    ensures Extent(logSize, stride, exp) > 0.0
  {
    var _ := PositiveProduct(exp(logSize), stride as real);
  }

  lemma RawBoxIsPositive(row: seq<real>, stride: int, gridX: nat, gridY: nat, exp: Exponential)
    requires |row| >= 5 && stride > 0
    ensures RawBox(row, stride, gridX, gridY, exp).width > 0.0
    ensures RawBox(row, stride, gridX, gridY, exp).height > 0.0
  {
    hide Center, Extent;
    ExtentIsPositive(row[2], stride, exp);
    ExtentIsPositive(row[3], stride, exp);
  }

  /** In exact arithmetic the final size check never rejects a row. */
  lemma DecodedBoxIsPositive(row: seq<real>, stride: int, gridX: nat, gridY: nat, scale: real, exp: Exponential)
    requires |row| >= 5 && scale > 0.0 && stride > 0
    ensures DecodeBox(row, stride, gridX, gridY, scale, exp).Positive()
  {
    hide RawBox;
    RawBoxIsPositive(row, stride, gridX, gridY, exp);
    var raw := RawBox(row, stride, gridX, gridY, exp);
    PositiveQuotient(raw.width, scale);
    PositiveQuotient(raw.height, scale);
  }

  // ----- what a row says, without reference to how it is decoded

  /** Side and center, scaled back, are those predicted relative to the cell. */
  ghost predicate Predicted(start: real, side: real, offset: real, gridIndex: nat, logSize: real, stride: int,
                            scale: real, exp: Exponential)
  {
    && side * scale == exp(logSize) * stride as real
    && (2.0 * start + side) * scale == 2.0 * (offset + gridIndex as real) * stride as real
  }

  ghost predicate BoxOfRow(box: BoundingBox, row: seq<real>, stride: int, gridX: nat, gridY: nat,
                           scale: real, exp: Exponential)
    requires |row| >= 5
  {
    && Predicted(box.x, box.width, row[0], gridX, row[2], stride, scale, exp)
    && Predicted(box.y, box.height, row[1], gridY, row[3], stride, scale, exp)
  }

  /** The detection names the first class of greatest score, which is positive and reaches the threshold. */
  ghost predicate ScoreOfRow(d: Detection, row: seq<real>, threshold: real)
    requires |row| >= 5
  {
    d.classId >= 0 && BestOfRow(row, d.classId, d.score) && d.score >= threshold
  }

  /** No class has a positive score that reaches the threshold. */
  ghost predicate NothingInRow(row: seq<real>, threshold: real)
    requires |row| >= 5
  {
    forall j :: 5 <= j < |row| ==> row[4] * row[j] <= 0.0 || row[4] * row[j] < threshold
  }

  /** One axis of a box given by its center and side and then divided by the scale. */
  lemma ScaledAxis(center: real, side: real, start: real, scale: real)
    requires scale > 0.0 && start == center - side / 2.0
    ensures (side / scale) * scale == side
    ensures (2.0 * (start / scale) + side / scale) * scale == 2.0 * center
  {
    var x, width := start / scale, side / scale;
    assert x * scale == start && width * scale == side;
    assert (2.0 * x + width) * scale == 2.0 * (x * scale) + width * scale;
  }

  lemma AxisIsPredicted(offset: real, gridIndex: nat, logSize: real, stride: int, scale: real, exp: Exponential)
    requires scale > 0.0
    ensures var side := Extent(logSize, stride, exp);
            var start := Center(offset, gridIndex, stride) - side / 2.0;
            Predicted(start / scale, side / scale, offset, gridIndex, logSize, stride, scale, exp)
  {
    var center, side := Center(offset, gridIndex, stride), Extent(logSize, stride, exp);
    assert 2.0 * center == 2.0 * (offset + gridIndex as real) * stride as real;
    assert side == exp(logSize) * stride as real;
    hide Center, Extent;
    ScaledAxis(center, side, center - side / 2.0, scale);
  }

  lemma DecodeBoxIsBoxOfRow(row: seq<real>, stride: int, gridX: nat, gridY: nat, scale: real, exp: Exponential)
    requires |row| >= 5 && scale > 0.0
    ensures BoxOfRow(DecodeBox(row, stride, gridX, gridY, scale, exp), row, stride, gridX, gridY, scale, exp)
  {
    hide Center, Extent, Predicted;
    AxisIsPredicted(row[0], gridX, row[2], stride, scale, exp);
    AxisIsPredicted(row[1], gridY, row[3], stride, scale, exp);
  }

  lemma NothingFromBest(row: seq<real>, classId: int, score: real, threshold: real)
    requires |row| >= 5 && BestOfRow(row, classId, score) && (classId < 0 || score < threshold)
    ensures NothingInRow(row, threshold)
  {
    forall j | 5 <= j < |row| ensures row[4] * row[j] <= 0.0 || row[4] * row[j] < threshold {
    }
  }

  /** A row contributes the box it predicts under its best class, or nothing when no class scores enough. */
  lemma DecodeRowMeaning(row: seq<real>, stride: int, gridX: nat, gridY: nat,
                         scale: real, threshold: real, exp: Exponential)
    requires |row| >= 5 && scale > 0.0
    ensures match DecodeRow(row, stride, gridX, gridY, scale, threshold, exp)
            case Some(d) => BoxOfRow(d.box, row, stride, gridX, gridY, scale, exp) && ScoreOfRow(d, row, threshold)
            case None => stride > 0 ==> NothingInRow(row, threshold)
  {
    hide DecodeBox, BoxOfRow, BestClass, BestOfRow, IsArgMax, NothingInRow;
    var best := BestClass(row, |row| - 5);
    BestClassIsArgMax(row, |row| - 5, best);
    ArgMaxIsBest(row, best);
    DecodeBoxIsBoxOfRow(row, stride, gridX, gridY, scale, exp);
    if stride > 0 {
      DecodedBoxIsPositive(row, stride, gridX, gridY, scale, exp);
    }
    if best.classId < 0 || best.score < threshold {
      NothingFromBest(row, best.classId, best.score, threshold);
    }
  }

  // ----- the whole prediction buffer

  predicate WellSized(m: ModelSpec, predictions: seq<real>)
    requires m.Valid()
  {
    |predictions| == m.BufferSize()
  }

  lemma RowInBounds(i: nat, count: nat, values: nat)
    requires i < count
    ensures 0 <= i * values <= i * values + values <= count * values
  {
    NextMultiple(i, values);
    ProductMonotone(i + 1, count, values);
  }

  function Row(m: ModelSpec, predictions: seq<real>, i: nat): (row: seq<real>)
    requires m.Valid() && WellSized(m, predictions) && i < m.CandidateCount()
    ensures |row| == m.ValuesPerCandidate()
  {
    RowInBounds(i, m.CandidateCount(), m.ValuesPerCandidate());
    predictions[i * m.ValuesPerCandidate()..i * m.ValuesPerCandidate() + m.ValuesPerCandidate()]
  }

  function DecodeAt(m: ModelSpec, predictions: seq<real>, i: nat,
                    scale: real, threshold: real, exp: Exponential): Option<Detection>
    requires m.Valid() && WellSized(m, predictions) && i < m.CandidateCount() && scale > 0.0
  {
    var c := CellOfRow(m, i);
    DecodeRow(Row(m, predictions, i), m.strides[c.level], c.gridX, c.gridY, scale, threshold, exp)
  }

  /** What each of the first `n` rows contributes. */
  function DecodeRows(m: ModelSpec, predictions: seq<real>, n: nat,
                      scale: real, threshold: real, exp: Exponential): (rows: seq<Option<Detection>>)
    requires m.Valid() && WellSized(m, predictions) && n <= m.CandidateCount() && scale > 0.0
    ensures |rows| == n
  {
    seq(n, i requires 0 <= i < n => DecodeAt(m, predictions, i, scale, threshold, exp))
  }

  /** The detections of a whole buffer, in row order. */
  function Decode(m: ModelSpec, predictions: seq<real>,
                  scale: real, threshold: real, exp: Exponential): seq<Detection>
    requires m.Valid() && WellSized(m, predictions) && scale > 0.0
  {
    Somes(DecodeRows(m, predictions, m.CandidateCount(), scale, threshold, exp))
  }

  predicate ValidArguments(m: ModelSpec, predictions: seq<real>, scale: real, threshold: real)
    requires m.Valid()
  {
    WellSized(m, predictions) && scale > 0.0 && ValidThreshold(threshold)
  }

  /** The detections of a whole buffer, or a refusal of malformed arguments. */
  function DecodeSpec(m: ModelSpec, predictions: seq<real>, scale: real, threshold: real, exp: Exponential):
    Outcome<seq<Detection>>
    requires m.Valid()
  {
    if ValidArguments(m, predictions, scale, threshold)
    then Ok(Decode(m, predictions, scale, threshold, exp))
    else InvalidArgument
  }

  method DecodeCandidate(row: seq<real>, stride: int, gridX: nat, gridY: nat, classCount: nat,
                         imageScale: real, scoreThreshold: real, exp: Exponential)
    returns (r: Option<Detection>)
    requires |row| == 5 + classCount && imageScale > 0.0
    ensures r == DecodeRow(row, stride, gridX, gridY, imageScale, scoreThreshold, exp)
    ensures r.Some? ==> BoxOfRow(r.value.box, row, stride, gridX, gridY, imageScale, exp)
                        && ScoreOfRow(r.value, row, scoreThreshold)
    ensures r.None? && stride > 0 ==> NothingInRow(row, scoreThreshold)
  {
    DecodeRowMeaning(row, stride, gridX, gridY, imageScale, scoreThreshold, exp);
    hide DecodeBox, BestClass, IsArgMax, BoxOfRow, ScoreOfRow, NothingInRow, BestOfRow;
    var bestClassId, bestScore := FindBestClass(row, classCount);
    BestClassIsArgMax(row, classCount, Best(bestClassId, bestScore));
    if bestClassId < 0 || bestScore < scoreThreshold {
      return None;
    }
    var box := DecodeBox(row, stride, gridX, gridY, imageScale, exp);
    if box.width <= 0.0 || box.height <= 0.0 {
      return None;
    }
    r := Some(Detection(box, bestClassId, bestScore));
  }

  lemma DecodeAtCell(m: ModelSpec, predictions: seq<real>, c: Cell, scale: real, threshold: real, exp: Exponential)
    requires m.Valid() && WellSized(m, predictions) && scale > 0.0 && OnGrid(m, c)
    ensures IndexOf(m, c) < m.CandidateCount()
    ensures DecodeAt(m, predictions, IndexOf(m, c), scale, threshold, exp)
            == DecodeRow(Row(m, predictions, IndexOf(m, c)), m.strides[c.level], c.gridX, c.gridY,
                         scale, threshold, exp)
  {
    hide IndexOf, DecodeRow, Row;
    CellsAndRowsCorrespond(m, c, 0);
  }

  lemma DecodeNextRow(m: ModelSpec, predictions: seq<real>, n: nat, scale: real, threshold: real, exp: Exponential)
    requires m.Valid() && WellSized(m, predictions) && n < m.CandidateCount() && scale > 0.0
    ensures Somes(DecodeRows(m, predictions, n + 1, scale, threshold, exp))
            == match DecodeAt(m, predictions, n, scale, threshold, exp)
               case None => Somes(DecodeRows(m, predictions, n, scale, threshold, exp))
               case Some(d) => Somes(DecodeRows(m, predictions, n, scale, threshold, exp)) + [d]
  {
    hide DecodeAt;
    var d := DecodeAt(m, predictions, n, scale, threshold, exp);
    SomesSnoc(DecodeRows(m, predictions, n, scale, threshold, exp), d);
    assert DecodeRows(m, predictions, n + 1, scale, threshold, exp)
        == DecodeRows(m, predictions, n, scale, threshold, exp) + [d];
  }

  lemma DecodeNextCell(m: ModelSpec, predictions: seq<real>, k: nat, x: nat, y: nat, index: nat,
                       scale: real, threshold: real, exp: Exponential)
    requires m.Valid() && WellSized(m, predictions) && scale > 0.0
    requires k < |m.strides| && x < m.GridWidth(k) && y < m.GridHeight(k)
    requires index == m.Base(k) + y * m.GridWidth(k) + x
    ensures index < m.CandidateCount()
    ensures Somes(DecodeRows(m, predictions, index + 1, scale, threshold, exp))
            == match DecodeRow(Row(m, predictions, index), m.strides[k], x, y, scale, threshold, exp)
               case None => Somes(DecodeRows(m, predictions, index, scale, threshold, exp))
               case Some(d) => Somes(DecodeRows(m, predictions, index, scale, threshold, exp)) + [d]
  {
    hide DecodeRows, DecodeRow, Row;
    assert index == IndexOf(m, Cell(k, x, y));
    DecodeAtCell(m, predictions, Cell(k, x, y), scale, threshold, exp);
    DecodeNextRow(m, predictions, index, scale, threshold, exp);
  }

  // ----- what a whole buffer yields, cell by cell

  /** `row` holds the values of candidate `n` in the buffer. */
  ghost predicate IsRow(m: ModelSpec, predictions: seq<real>, n: nat, row: seq<real>) {
    && |row| == 5 + m.classCount && n * (5 + m.classCount) + |row| <= |predictions|
    && forall j :: 0 <= j < |row| ==> row[j] == predictions[n * (5 + m.classCount) + j]
  }

  /** Candidate `n` belongs to the cell: those of earlier strides come first, then the grid line by line. */
  ghost predicate Numbers(m: ModelSpec, c: Cell, n: nat)
    requires m.Valid()
  {
    OnGrid(m, c) && n == m.Base(c.level) + c.gridY * (m.inputWidth / m.strides[c.level]) + c.gridX
  }

  /** Candidate `n` of the buffer says `d`. */
  ghost predicate Says(m: ModelSpec, predictions: seq<real>, n: nat, d: Detection,
                       scale: real, threshold: real, exp: Exponential)
    requires m.Valid()
  {
    exists c, row :: Numbers(m, c, n) && IsRow(m, predictions, n, row)
                     && BoxOfRow(d.box, row, m.strides[c.level], c.gridX, c.gridY, scale, exp)
                     && ScoreOfRow(d, row, threshold)
  }

  /** Candidate `n` of the buffer says nothing. */
  ghost predicate SaysNothing(m: ModelSpec, predictions: seq<real>, n: nat, threshold: real) {
    exists row :: IsRow(m, predictions, n, row) && NothingInRow(row, threshold)
  }

  /** `rows` are the candidates that say something, in order, and `out` is what they say. */
  ghost predicate Yields(m: ModelSpec, predictions: seq<real>, count: nat, rows: seq<nat>, out: seq<Detection>,
                         scale: real, threshold: real, exp: Exponential)
    requires m.Valid()
  {
    && |rows| == |out|
    && (forall i :: 0 <= i < |rows| ==> rows[i] < count)
    && (forall i :: 0 <= i < |rows| ==> Says(m, predictions, rows[i], out[i], scale, threshold, exp))
    && (forall i, j :: 0 <= i < j < |rows| ==> rows[i] < rows[j])
    && (forall n: nat :: n < count && n !in rows ==> SaysNothing(m, predictions, n, threshold))
  }

  lemma RowIsRow(m: ModelSpec, predictions: seq<real>, n: nat)
    requires m.Valid() && WellSized(m, predictions) && n < m.CandidateCount()
    ensures IsRow(m, predictions, n, Row(m, predictions, n))
  {
    hide ModelSpec.CandidateCount;
    RowInBounds(n, m.CandidateCount(), m.ValuesPerCandidate());
  }

  lemma CellNumbers(m: ModelSpec, n: nat)
    requires m.Valid() && n < m.CandidateCount()
    ensures Numbers(m, CellOfRow(m, n), n)
  {
    CellsAndRowsCorrespond(m, CellOfRow(m, n), n);
  }

  lemma RowMeaning(m: ModelSpec, predictions: seq<real>, n: nat, scale: real, threshold: real, exp: Exponential)
    requires m.Valid() && WellSized(m, predictions) && n < m.CandidateCount() && scale > 0.0
    ensures match DecodeAt(m, predictions, n, scale, threshold, exp)
            case Some(d) => Says(m, predictions, n, d, scale, threshold, exp)
            case None => SaysNothing(m, predictions, n, threshold)
  {
    hide CellOfRow, DecodeRow, BoxOfRow, ScoreOfRow, NothingInRow, ModelSpec.CandidateCount, ModelSpec.Base, Row, IsRow;
    var c, row := CellOfRow(m, n), Row(m, predictions, n);
    CellNumbers(m, n);
    RowIsRow(m, predictions, n);
    DecodeRowMeaning(row, m.strides[c.level], c.gridX, c.gridY, scale, threshold, exp);
  }

  lemma YieldsOneMore(m: ModelSpec, predictions: seq<real>, n: nat, rows: seq<nat>, out: seq<Detection>,
                      d: Option<Detection>, scale: real, threshold: real, exp: Exponential)
    requires m.Valid() && Yields(m, predictions, n, rows, out, scale, threshold, exp)
    requires match d
             case Some(found) => Says(m, predictions, n, found, scale, threshold, exp)
             case None => SaysNothing(m, predictions, n, threshold)
    ensures d.Some? ==> Yields(m, predictions, n + 1, rows + [n], out + [d.value], scale, threshold, exp)
    ensures d.None? ==> Yields(m, predictions, n + 1, rows, out, scale, threshold, exp)
  {
    hide Says, SaysNothing;
    if d.Some? {
      var longer := rows + [n];
      forall k: nat | k < n + 1 && k !in longer ensures SaysNothing(m, predictions, k, threshold) {
        assert longer[|rows|] == n;
        assert k !in rows && k != n;
      }
    }
  }

  lemma YieldedScores(m: ModelSpec, predictions: seq<real>, count: nat, rows: seq<nat>, out: seq<Detection>,
                      scale: real, threshold: real, exp: Exponential)
    requires m.Valid() && Yields(m, predictions, count, rows, out, scale, threshold, exp)
    ensures forall d :: d in out ==> d.score >= threshold && d.score > 0.0
  {
    hide BoxOfRow, IsRow, Numbers;
    forall d | d in out ensures d.score >= threshold && d.score > 0.0 {
      var i :| 0 <= i < |out| && out[i] == d;
      assert Says(m, predictions, rows[i], out[i], scale, threshold, exp);
    }
  }

  lemma {:induction false} DecodeRowsYield(m: ModelSpec, predictions: seq<real>, n: nat,
                                           scale: real, threshold: real, exp: Exponential)
    returns (rows: seq<nat>)
    requires m.Valid() && WellSized(m, predictions) && n <= m.CandidateCount() && scale > 0.0
    ensures Yields(m, predictions, n, rows, Somes(DecodeRows(m, predictions, n, scale, threshold, exp)),
                   scale, threshold, exp)
  {
    hide DecodeAt, Says, SaysNothing;
    if n == 0 {
      rows := [];
      assert DecodeRows(m, predictions, n, scale, threshold, exp) == [];
    } else {
      hide Yields, DecodeRows;
      rows := DecodeRowsYield(m, predictions, n - 1, scale, threshold, exp);
      var out := Somes(DecodeRows(m, predictions, n - 1, scale, threshold, exp));
      var d := DecodeAt(m, predictions, n - 1, scale, threshold, exp);
      RowMeaning(m, predictions, n - 1, scale, threshold, exp);
      DecodeNextRow(m, predictions, n - 1, scale, threshold, exp);
      YieldsOneMore(m, predictions, n - 1, rows, out, d, scale, threshold, exp);
      if d.Some? {
        rows := rows + [n - 1];
      }
    }
  }

  /** The two inner loops: all cells of the grid of the k-th stride. */
  method DecodeGrid(m: ModelSpec, predictions: seq<real>, k: nat, imageScale: real, scoreThreshold: real,
                    exp: Exponential, detections: seq<Detection>)
    returns (r: seq<Detection>, candidateIndex: nat)
    requires m.Valid() && WellSized(m, predictions) && imageScale > 0.0 && k < |m.strides|
    requires m.Base(k + 1) <= m.CandidateCount()
    requires detections == Somes(DecodeRows(m, predictions, m.Base(k), imageScale, scoreThreshold, exp))
    ensures candidateIndex == m.Base(k + 1)
    ensures r == Somes(DecodeRows(m, predictions, candidateIndex, imageScale, scoreThreshold, exp))
  {
    hide DecodeRows, DecodeRow, Row, ModelSpec.BufferSize, ModelSpec.GridWidth, ModelSpec.GridHeight;
    r, candidateIndex := detections, m.Base(k);
    var gridWidth := m.GridWidth(k);
    var gridHeight := m.GridHeight(k);
    for gridY := 0 to gridHeight
      invariant candidateIndex == m.Base(k) + gridY * gridWidth <= m.CandidateCount()
      invariant r == Somes(DecodeRows(m, predictions, candidateIndex, imageScale, scoreThreshold, exp))
    {
      NextMultiple(gridY, gridWidth);
      ProductMonotone(gridY + 1, gridHeight, gridWidth);
      for gridX := 0 to gridWidth
        invariant candidateIndex == m.Base(k) + gridY * gridWidth + gridX <= m.CandidateCount()
        invariant r == Somes(DecodeRows(m, predictions, candidateIndex, imageScale, scoreThreshold, exp))
      {
        DecodeNextCell(m, predictions, k, gridX, gridY, candidateIndex, imageScale, scoreThreshold, exp);
        var row := Row(m, predictions, candidateIndex);
        var d := DecodeCandidate(row, m.strides[k], gridX, gridY, m.classCount, imageScale, scoreThreshold, exp);
        if d.Some? {
          r := r + [d.value];
        }
        candidateIndex := candidateIndex + 1;
      }
    }
  }

  method DecodeDetections(m: ModelSpec, predictions: seq<real>, imageScale: real, scoreThreshold: real,
                          exp: Exponential)
    returns (r: Outcome<seq<Detection>>)
    requires m.Valid()
    ensures r == DecodeSpec(m, predictions, imageScale, scoreThreshold, exp)
    ensures r.InvalidArgument? <==> |predictions| != m.CandidateCount() * (5 + m.classCount) || imageScale <= 0.0
                                    || scoreThreshold < 0.0 || scoreThreshold > 1.0
    ensures r.Ok? ==> exists rows :: Yields(m, predictions, m.CandidateCount(), rows, r.value,
                                            imageScale, scoreThreshold, exp)
  {
    hide Yields;
    if |predictions| != m.BufferSize() {
      return InvalidArgument;
    }
    if imageScale <= 0.0 {
      return InvalidArgument;
    }
    if scoreThreshold < 0.0 || scoreThreshold > 1.0 {
      return InvalidArgument;
    }
    var detections: seq<Detection> := [];
    var candidateIndex := 0;
    for k := 0 to |m.strides|
      invariant candidateIndex == m.Base(k) <= m.CandidateCount()
      invariant detections == Somes(DecodeRows(m, predictions, candidateIndex, imageScale, scoreThreshold, exp))
    {
      BaseMonotone(m, k + 1, |m.strides|);
      detections, candidateIndex :=
        DecodeGrid(m, predictions, k, imageScale, scoreThreshold, exp, detections);
    }
    ghost var rows := DecodeRowsYield(m, predictions, candidateIndex, imageScale, scoreThreshold, exp);
    r := Ok(detections);
  }

  // ----- threshold and scale

  lemma DecodeAtThreshold(m: ModelSpec, predictions: seq<real>, i: nat,
                          scale: real, low: real, high: real, exp: Exponential)
    requires m.Valid() && WellSized(m, predictions) && i < m.CandidateCount() && scale > 0.0 && low <= high
    ensures DecodeAt(m, predictions, i, scale, high, exp)
            == match DecodeAt(m, predictions, i, scale, low, exp)
               case None => None
               case Some(d) => if d.score >= high then Some(d) else None
  {
    hide DecodeBox, BestClass, Row, CellOfRow;
  }

  lemma DecodeCommutesWithThreshold(m: ModelSpec, predictions: seq<real>,
                                    scale: real, low: real, high: real, exp: Exponential)
    requires m.Valid() && WellSized(m, predictions) && scale > 0.0 && low <= high
    ensures Filter(Decode(m, predictions, scale, low, exp), AtLeast(high))
            == Decode(m, predictions, scale, high, exp)
  {
    hide DecodeAt;
    var n := m.CandidateCount();
    var weak := DecodeRows(m, predictions, n, scale, low, exp);
    var strong := DecodeRows(m, predictions, n, scale, high, exp);
    forall i | 0 <= i < n
      ensures strong[i] == if weak[i].Some? && AtLeast(high)(weak[i].value) then weak[i] else None
    {
      DecodeAtThreshold(m, predictions, i, scale, low, high, exp);
    }
    SomesFilter(weak, strong, AtLeast(high));
  }

  lemma QuotientOfProduct(x: real, k: real, s: real)
    requires k > 0.0 && s > 0.0
    ensures k * s > 0.0 && x / (k * s) == x / s * (1.0 / k)
  {
    var c := PositiveProduct(k, s);
    var q := x / s * (1.0 / k);
    assert q * c == x by {
      assert (1.0 / k) * k == 1.0 && (x / s) * s == x;
      assert q * c == ((x / s) * s) * ((1.0 / k) * k);
    }
    assert (x / c - q) * c == 0.0;
  }

  lemma DecodeBoxScales(row: seq<real>, stride: int, gridX: nat, gridY: nat, k: real, s: real, exp: Exponential)
    requires |row| >= 5 && k > 0.0 && s > 0.0
    ensures k * s > 0.0
    ensures DecodeBox(row, stride, gridX, gridY, k * s, exp)
            == DecodeBox(row, stride, gridX, gridY, s, exp).Scale(1.0 / k)
  {
    hide RawBox;
    var raw := RawBox(row, stride, gridX, gridY, exp);
    QuotientOfProduct(raw.x, k, s);
    QuotientOfProduct(raw.y, k, s);
    QuotientOfProduct(raw.width, k, s);
    QuotientOfProduct(raw.height, k, s);
  }

  lemma DecodeRowScales(row: seq<real>, stride: int, gridX: nat, gridY: nat,
                        k: real, s: real, threshold: real, exp: Exponential)
    requires |row| >= 5 && stride > 0 && k > 0.0 && s > 0.0
    ensures k * s > 0.0
    ensures DecodeRow(row, stride, gridX, gridY, k * s, threshold, exp)
            == match DecodeRow(row, stride, gridX, gridY, s, threshold, exp)
               case None => None
               case Some(d) => Some(ScaleDetection(1.0 / k)(d))
  {
    hide DecodeBox, BoundingBox.Positive, BoundingBox.Scale;
    DecodeBoxScales(row, stride, gridX, gridY, k, s, exp);
    DecodedBoxIsPositive(row, stride, gridX, gridY, s, exp);
    DecodedBoxIsPositive(row, stride, gridX, gridY, k * s, exp);
  }

  lemma DecodeScales(m: ModelSpec, predictions: seq<real>, k: real, s: real, threshold: real, exp: Exponential)
    requires m.Valid() && WellSized(m, predictions) && k > 0.0 && s > 0.0
    ensures k * s > 0.0
    ensures Decode(m, predictions, k * s, threshold, exp)
            == Map(Decode(m, predictions, s, threshold, exp), ScaleDetection(1.0 / k))
  {
    hide DecodeRow, Row, ScaleDetection, ModelSpec.BufferSize;
    var c := PositiveProduct(k, s);
    var n := m.CandidateCount();
    var base := DecodeRows(m, predictions, n, s, threshold, exp);
    var scaled := DecodeRows(m, predictions, n, c, threshold, exp);
    forall i | 0 <= i < n
      ensures scaled[i] == if base[i].Some? then Some(ScaleDetection(1.0 / k)(base[i].value)) else None
    {
      var cell := CellOfRow(m, i);
      DecodeRowScales(Row(m, predictions, i), m.strides[cell.level], cell.gridX, cell.gridY, k, s, threshold, exp);
    }
    SomesMap(base, scaled, ScaleDetection(1.0 / k));
  }
}
