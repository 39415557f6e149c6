/**
 * The column steps of `preprocess_input` (src/ml/pipeline.py): the TotalCalls
 * derivation, the Yes/No encoding, the one-hot step and the alignment to the
 * training columns. Imputation and scaling are not part of this model.
 */
module Pipeline {
  import opened Http
  import opened Frames

  const InboundCalls: string := "InboundCalls"
  const OutboundCalls: string := "OutboundCalls"
  const TotalCalls: string := "TotalCalls"
  const BinaryFeatures: seq<string> := ["RespondsToMailOffers", "MadeCallToRetentionTeam"]
  const LowCardFeatures: seq<string> := ["CreditRating", "IncomeGroup", "Occupation", "PrizmCode"]

  /** The exceptions pandas raises on the way. */
  datatype FrameError =
    | KeyError(column: string)             // `df[label]` on a missing label
    | NotInIndex(labels: seq<string>)      // `df[list]` with some labels missing: "[...] not in index", in request order
    | NoneInIndex(labels: seq<string>)     // `df[list]` with every label missing: "None of [...] are in the [columns]"
    | TypeError                            // `+` of a string and a number
    | IntCastError(column: string)         // `astype(int)` of a NaN left by `map`

  datatype FrameResult = Done(frame: Frame) | Raised(error: FrameError)

  /** `a + b` on two cells: numbers add (an int with a float gives a float), strings concatenate. */
  function AddCells(a: Cell, b: Cell): (r: Option<Cell>)
    ensures a.IntCell? && b.IntCell? ==> r == Some(IntCell(a.i + b.i))
    ensures r.None? <==> (a.StrCell? != b.StrCell?)
  {
    match (a, b)
    case (IntCell(x), IntCell(y)) => Some(IntCell(x + y))
    case (IntCell(x), RealCell(y)) => Some(RealCell(x as real + y))
    case (RealCell(x), IntCell(y)) => Some(RealCell(x + y as real))
    case (RealCell(x), RealCell(y)) => Some(RealCell(x + y))
    case (StrCell(x), StrCell(y)) => Some(StrCell(x + y))
    case _ => None
  }

  /**
   * `df['TotalCalls'] = df['InboundCalls'] + df['OutboundCalls']`, then the
   * two source columns are dropped.
   */
  function DeriveTotalCalls(f: Frame): (r: FrameResult)
    requires WellFormed(f)
    ensures r.Done? ==> WellFormed(r.frame)
    ensures r.Done? <==> InboundCalls in f.cells && OutboundCalls in f.cells
                         && AddCells(f.cells[InboundCalls], f.cells[OutboundCalls]).Some?
    ensures r.Done? ==> TotalCalls in r.frame.cells
                        && Some(r.frame.cells[TotalCalls]) == AddCells(f.cells[InboundCalls], f.cells[OutboundCalls])
    ensures r.Done? ==> InboundCalls !in r.frame.names && OutboundCalls !in r.frame.names
    ensures r.Done? ==> forall n :: n in f.cells && n != InboundCalls && n != OutboundCalls && n != TotalCalls ==>
              n in r.frame.cells && r.frame.cells[n] == f.cells[n]
    ensures r.Done? ==> forall n :: n in r.frame.cells ==> n == TotalCalls || n in f.cells
    ensures r.Raised? && InboundCalls !in f.cells ==> r.error == KeyError(InboundCalls)
    ensures r.Raised? && InboundCalls in f.cells && OutboundCalls !in f.cells ==> r.error == KeyError(OutboundCalls)
    ensures r.Raised? && InboundCalls in f.cells && OutboundCalls in f.cells ==> r.error == TypeError
  {
    if InboundCalls !in f.cells then Raised(KeyError(InboundCalls))
    else if OutboundCalls !in f.cells then Raised(KeyError(OutboundCalls))
    else match AddCells(f.cells[InboundCalls], f.cells[OutboundCalls])
      case None => Raised(TypeError)
      case Some(total) => Done(Drop(Assign(f, TotalCalls, total), [InboundCalls, OutboundCalls]))
  }

  /** `.map({'Yes': 1, 'No': 0})` on one cell; no entry means NaN, which `astype(int)` refuses. */
  function BinaryCode(c: Cell): (r: Option<int>)
    ensures r == Some(1) <==> c == StrCell("Yes")
    ensures r == Some(0) <==> c == StrCell("No")
    ensures r.None? <==> c != StrCell("Yes") && c != StrCell("No")
  {
    if c == StrCell("Yes") then Some(1) else if c == StrCell("No") then Some(0) else None
  }

  /** What the binary loop leaves in column `n` when it succeeds: a binary column's code, any other cell as it was. */
  function EncodedCell(n: string, c: Cell): Cell {
    if n in BinaryFeatures && BinaryCode(c).Some? then IntCell(BinaryCode(c).value) else c
  }

  /** The frame after encoding the binary columns in order, with the first failure if any. */
  datatype Encoded = Encoded(frame: Frame, failure: Option<FrameError>)

  /**
   * The `for col in binary_features` loop: a present column is replaced by its
   * code; the first column with no code stops the loop, the ones before it
   * stay encoded.
   */
  function EncodeBinary(f: Frame, cols: seq<string>): (e: Encoded)
    requires WellFormed(f)
    ensures WellFormed(e.frame) && e.frame.names == f.names
    decreases |cols|
  {
    if |cols| == 0 then Encoded(f, None)
    else if cols[0] !in f.cells then EncodeBinary(f, cols[1..])
    else match BinaryCode(f.cells[cols[0]])
      case None => Encoded(f, Some(IntCastError(cols[0])))
      case Some(b) => EncodeBinary(Assign(f, cols[0], IntCell(b)), cols[1..])
  }

  /**
   * The loop succeeds exactly when every present binary column holds "Yes" or
   * "No"; it then holds 1 or 0, and every other column is untouched.
   */
  lemma {:induction false} EncodeBinaryCodes(f: Frame, cols: seq<string>)
    requires WellFormed(f) && Distinct(cols)
    ensures var e := EncodeBinary(f, cols);
      && (e.failure.None? <==> forall c :: c in cols && c in f.cells ==> BinaryCode(f.cells[c]).Some?)
      && (e.failure.None? ==> forall c :: c in cols && c in f.cells ==>
            c in e.frame.cells && Some(e.frame.cells[c]) == (if f.cells[c] == StrCell("Yes") then Some(IntCell(1)) else Some(IntCell(0))))
      && (forall n :: n in f.cells && n !in cols ==> n in e.frame.cells && e.frame.cells[n] == f.cells[n])
    decreases |cols|
  {
    if |cols| > 0 {
      var c0 := cols[0];
      assert forall c :: c in cols <==> c == c0 || c in cols[1..];
      assert c0 !in cols[1..];
      assert Distinct(cols[1..]);
      if c0 !in f.cells {
        EncodeBinaryCodes(f, cols[1..]);
      } else if BinaryCode(f.cells[c0]).Some? {
        var f' := Assign(f, c0, IntCell(BinaryCode(f.cells[c0]).value));
        EncodeBinaryCodes(f', cols[1..]);
      }
    }
  }

  /**
   * The loop raised at `cols[i]`: the first present column with no code. The
   * present columns before it are already coded, and every other column is
   * as it was.
   */
  predicate StoppedAt(f: Frame, cols: seq<string>, e: Encoded, i: int) {
    && 0 <= i < |cols|
    && e.failure == Some(IntCastError(cols[i]))
    && cols[i] in f.cells && BinaryCode(f.cells[cols[i]]).None?
    && (forall j :: 0 <= j < i && cols[j] in f.cells ==>
          && BinaryCode(f.cells[cols[j]]).Some?
          && cols[j] in e.frame.cells && e.frame.cells[cols[j]] == IntCell(BinaryCode(f.cells[cols[j]]).value))
    && (forall n :: n in f.cells && n !in cols[..i] ==> n in e.frame.cells && e.frame.cells[n] == f.cells[n])
  }

  /** A column the frame lacks is skipped: the stop moves one place along. */
  lemma StoppedAfterSkip(f: Frame, c0: string, tail: seq<string>, e: Encoded, i: int)
    requires c0 !in f.cells && StoppedAt(f, tail, e, i)
    ensures StoppedAt(f, [c0] + tail, e, i + 1)
  {
    var cols := [c0] + tail;
    assert cols[..i + 1] == [c0] + tail[..i];
    forall j | 0 <= j < i + 1 && cols[j] in f.cells
      ensures BinaryCode(f.cells[cols[j]]).Some? && cols[j] in e.frame.cells
              && e.frame.cells[cols[j]] == IntCell(BinaryCode(f.cells[cols[j]]).value)
    {
      assert cols[j] == tail[j - 1];
    }
  }

  /** A coded column stays coded: the stop found on the updated frame moves one place along. */
  lemma StoppedAfterCode(f: Frame, c0: string, tail: seq<string>, e: Encoded, i: int)
    requires c0 in f.cells && BinaryCode(f.cells[c0]).Some? && c0 !in tail
    requires StoppedAt(Assign(f, c0, IntCell(BinaryCode(f.cells[c0]).value)), tail, e, i)
    ensures StoppedAt(f, [c0] + tail, e, i + 1)
  {
    var f' := Assign(f, c0, IntCell(BinaryCode(f.cells[c0]).value));
    var cols := [c0] + tail;
    assert cols[..i + 1] == [c0] + tail[..i];
    assert c0 !in tail[..i];
    assert c0 in e.frame.cells && e.frame.cells[c0] == f'.cells[c0];
    forall j | 0 <= j < i + 1 && cols[j] in f.cells
      ensures BinaryCode(f.cells[cols[j]]).Some? && cols[j] in e.frame.cells
              && e.frame.cells[cols[j]] == IntCell(BinaryCode(f.cells[cols[j]]).value)
    {
      if j > 0 {
        assert cols[j] == tail[j - 1] && cols[j] != c0;
      }
    }
  }

  /** A failed loop stops at the first present column with no code, leaving the earlier ones coded. */
  lemma {:induction false} EncodeBinaryStops(f: Frame, cols: seq<string>)
    requires WellFormed(f) && Distinct(cols)
    ensures EncodeBinary(f, cols).failure.Some? ==> exists i :: StoppedAt(f, cols, EncodeBinary(f, cols), i)
    decreases |cols|
  {
    if |cols| > 0 && EncodeBinary(f, cols).failure.Some? {
      var c0, tail := cols[0], cols[1..];
      assert cols == [c0] + tail;
      assert Distinct(tail);
      assert c0 !in tail;
      var e := EncodeBinary(f, cols);
      if c0 !in f.cells {
        EncodeBinaryStops(f, tail);
        var i :| StoppedAt(f, tail, e, i);
        StoppedAfterSkip(f, c0, tail, e, i);
      } else if BinaryCode(f.cells[c0]).None? {
        assert cols[..0] == [];
        assert StoppedAt(f, cols, e, 0);
      } else {
        var f' := Assign(f, c0, IntCell(BinaryCode(f.cells[c0]).value));
        EncodeBinaryStops(f', tail);
        var i :| StoppedAt(f', tail, e, i);
        StoppedAfterCode(f, c0, tail, e, i);
      }
    }
  }

  /** The labels the steps treat specially are pairwise different. */
  lemma LabelsDisjoint()
    ensures Distinct(BinaryFeatures)
    ensures forall c :: c in BinaryFeatures ==>
              c !in LowCardFeatures && c != InboundCalls && c != OutboundCalls && c != TotalCalls
    ensures forall c :: c in LowCardFeatures ==> c != InboundCalls && c != OutboundCalls && c != TotalCalls
  {
  }

  /** The binary loop over `BinaryFeatures`, cell by cell, in terms of `EncodedCell`. */
  lemma EncodedCells(f: Frame)
    requires WellFormed(f)
    ensures var e := EncodeBinary(f, BinaryFeatures);
      && (e.failure.None? <==> forall c :: c in BinaryFeatures && c in f.cells ==> BinaryCode(f.cells[c]).Some?)
      && (forall n :: n in e.frame.cells <==> n in f.cells)
      && (forall n :: n in f.cells && n !in BinaryFeatures ==> e.frame.cells[n] == f.cells[n])
      && (e.failure.None? ==> forall n :: n in f.cells ==> e.frame.cells[n] == EncodedCell(n, f.cells[n]))
  {
    LabelsDisjoint();
    EncodeBinaryCodes(f, BinaryFeatures);
  }

  /**
   * `pd.get_dummies(df[low_card_features], drop_first=True)` on one row: a
   * string column has a single category, which `drop_first` drops, so it
   * yields no column; a numeric column passes through unchanged.
   */
  function OneHotDropFirst(f: Frame, cols: seq<string>): (d: Frame)
    requires WellFormed(f) && Distinct(cols)
    requires forall c :: c in cols ==> c in f.cells
    ensures WellFormed(d)
    ensures forall n :: n in d.cells <==> n in cols && !f.cells[n].StrCell?
    ensures forall n :: n in d.cells ==> d.cells[n] == f.cells[n]
  {
    if |cols| == 0 then Frame([], map[])
    else
      var rest := OneHotDropFirst(f, cols[1..]);
      var c := cols[0];
      if f.cells[c].StrCell? then rest
      else Frame([c] + rest.names, rest.cells[c := f.cells[c]])
  }

  /** `pd.concat([df, dummies], axis=1)` for frames with disjoint labels. */
  function Concat(a: Frame, b: Frame): (r: Frame)
    requires WellFormed(a) && WellFormed(b)
    requires forall n :: n in a.cells ==> n !in b.cells
    ensures WellFormed(r) && r.names == a.names + b.names
    ensures forall n :: n in r.cells <==> n in a.cells || n in b.cells
    ensures forall n :: n in a.cells ==> r.cells[n] == a.cells[n]
    ensures forall n :: n in b.cells ==> r.cells[n] == b.cells[n]
  {
    var r := Frame(a.names + b.names, a.cells + b.cells);
    forall i, j | 0 <= i < j < |r.names| ensures r.names[i] != r.names[j] {
      if j >= |a.names| && i < |a.names| {
        assert r.names[i] in a.cells && r.names[j] in b.cells;
      }
    }
    r
  }

  /** `df.reindex(columns=train_columns, fill_value=0)`. */
  function Reindex(f: Frame, trainColumns: seq<string>): (r: Frame)
    ensures r.names == trainColumns
    ensures forall n :: n in trainColumns ==> n in r.cells
    ensures forall n :: n in trainColumns && n in f.cells ==> r.cells[n] == f.cells[n]
    ensures forall n :: n in trainColumns && n !in f.cells ==> r.cells[n] == IntCell(0)
  {
    Frame(trainColumns, map n | n in trainColumns :: if n in f.cells then f.cells[n] else IntCell(0))
  }

  /** What `preprocess_input` leaves in the caller's frame, and what it returns or raises. */
  datatype Preprocessed = Preprocessed(callerFrame: Frame, result: FrameResult)

  /**
   * The one-hot step: the four low-cardinality columns leave the caller's
   * frame and what `get_dummies` made of them is appended to the returned one.
   */
  function OneHotStep(f: Frame): (p: Preprocessed)
    requires WellFormed(f)
    ensures WellFormed(p.callerFrame)
    ensures p.result.Raised? <==> exists c :: c in LowCardFeatures && c !in f.cells
    ensures (forall c :: c in LowCardFeatures ==> c !in f.cells) ==> p.result == Raised(NoneInIndex(LowCardFeatures))
    ensures p.result.Raised? && (exists c :: c in LowCardFeatures && c in f.cells) ==>
              p.result == Raised(NotInIndex(Without(LowCardFeatures, f.names)))
    ensures p.result.Raised? ==>
              && (p.result.error.NotInIndex? || p.result.error.NoneInIndex?)
              && forall c :: c in p.result.error.labels <==> c in LowCardFeatures && c !in f.cells
    ensures p.result.Done? ==> forall n :: n in p.callerFrame.cells <==> n in f.cells && n !in LowCardFeatures
    ensures p.result.Done? ==> forall n :: n in p.callerFrame.cells ==> p.callerFrame.cells[n] == f.cells[n]
    ensures p.result.Done? ==> forall c :: c in LowCardFeatures ==> c !in p.callerFrame.names
    ensures p.result.Done? ==> p.callerFrame.names == Without(f.names, LowCardFeatures)
    ensures p.result.Done? ==> WellFormed(p.result.frame) && p.callerFrame.names <= p.result.frame.names
    ensures p.result.Done? ==> forall n :: n in p.result.frame.cells ==>
              n in f.cells && p.result.frame.cells[n] == f.cells[n] && !(n in LowCardFeatures && f.cells[n].StrCell?)
    ensures p.result.Done? ==> forall n :: n in p.result.frame.cells ==> n in p.callerFrame.cells || n in LowCardFeatures
    ensures p.result.Done? ==> forall n :: n in p.callerFrame.cells ==>
              n in p.result.frame.cells && p.result.frame.cells[n] == p.callerFrame.cells[n]
    ensures p.result.Done? ==> forall n :: n in f.cells && !(n in LowCardFeatures && f.cells[n].StrCell?) ==>
              n in p.result.frame.cells
    ensures p.result.Raised? ==> p.callerFrame == f
  {
    var missing := Without(LowCardFeatures, f.names);
    if forall c :: c in LowCardFeatures ==> c !in f.cells then Preprocessed(f, Raised(NoneInIndex(LowCardFeatures)))
    else if |missing| > 0 then
      assert missing[0] in missing;
      Preprocessed(f, Raised(NotInIndex(missing)))
    else
      var dummies := OneHotDropFirst(f, LowCardFeatures);
      var rest := Drop(f, LowCardFeatures);
      Preprocessed(rest, Done(Concat(rest, dummies)))
  }

  /** One-hot step, then alignment of the returned frame to the training columns. */
  function OneHotAndAlign(f: Frame, trainColumns: seq<string>): (p: Preprocessed)
    requires WellFormed(f)
    ensures WellFormed(p.callerFrame)
    ensures p.result.Done? <==> forall c :: c in LowCardFeatures ==> c in f.cells
    ensures p.result.Raised? ==>
              && p.callerFrame == f
              && (p.result.error.NotInIndex? || p.result.error.NoneInIndex?)
              && forall c :: c in p.result.error.labels <==> c in LowCardFeatures && c !in f.cells
    ensures p.result.Done? ==> forall n :: n in p.callerFrame.cells <==> n in f.cells && n !in LowCardFeatures
    ensures p.result.Done? ==> forall n :: n in p.callerFrame.cells ==> p.callerFrame.cells[n] == f.cells[n]
    ensures p.result.Done? ==> forall n :: n in trainColumns ==>
              && n in p.result.frame.cells
              && p.result.frame.cells[n] == (if n in f.cells && !(n in LowCardFeatures && f.cells[n].StrCell?) then f.cells[n] else IntCell(0))
    ensures p.result.Done? ==> p.result.frame.names == trainColumns
    ensures p.result.Done? ==> p.callerFrame.names == Without(f.names, LowCardFeatures)
    ensures p.result.Done? ==> forall n :: n in trainColumns && n in p.callerFrame.cells ==>
              n in p.result.frame.cells && p.result.frame.cells[n] == p.callerFrame.cells[n]
    ensures p.result.Done? ==> forall n :: n in trainColumns && n !in p.callerFrame.cells && n !in LowCardFeatures ==>
              n in p.result.frame.cells && p.result.frame.cells[n] == IntCell(0)
  {
    var p := OneHotStep(f);
    match p.result
    case Raised(_) => p
    case Done(joined) => Preprocessed(p.callerFrame, Done(Reindex(joined, trainColumns)))
  }

  /** The binary loop, then the one-hot step and the alignment. */
  function EncodeAndAlign(f: Frame, trainColumns: seq<string>): (p: Preprocessed)
    requires WellFormed(f)
    ensures WellFormed(p.callerFrame)
    ensures p.result.Done? <==>
              && (forall c :: c in BinaryFeatures && c in f.cells ==> BinaryCode(f.cells[c]).Some?)
              && (forall c :: c in LowCardFeatures ==> c in f.cells)
    ensures p.result.Done? ==> forall n :: n in trainColumns ==>
              && n in p.result.frame.cells
              && p.result.frame.cells[n] == (if n in f.cells && !(n in LowCardFeatures && f.cells[n].StrCell?)
                                             then EncodedCell(n, f.cells[n]) else IntCell(0))
    ensures p.result.Raised? ==>
              var e := EncodeBinary(f, BinaryFeatures);
              && p.callerFrame == e.frame
              && (e.failure.Some? ==> p.result.error == e.failure.value)
              && (e.failure.None? ==>
                    && (p.result.error.NotInIndex? || p.result.error.NoneInIndex?)
                    && forall c :: c in p.result.error.labels <==> c in LowCardFeatures && c !in f.cells)
    ensures p.result.Done? ==> forall n :: n in p.callerFrame.cells <==> n in f.cells && n !in LowCardFeatures
    ensures p.result.Done? ==> forall n :: n in p.callerFrame.cells ==> p.callerFrame.cells[n] == EncodedCell(n, f.cells[n])
    ensures p.result.Done? ==> p.result.frame.names == trainColumns
    ensures p.result.Done? ==> p.callerFrame.names == Without(f.names, LowCardFeatures)
    ensures p.result.Done? ==> forall n :: n in trainColumns && n in p.callerFrame.cells ==>
              n in p.result.frame.cells && p.result.frame.cells[n] == p.callerFrame.cells[n]
    ensures p.result.Done? ==> forall n :: n in trainColumns && n !in p.callerFrame.cells && n !in LowCardFeatures ==>
              n in p.result.frame.cells && p.result.frame.cells[n] == IntCell(0)
  {
    var e := EncodeBinary(f, BinaryFeatures);
    EncodedCells(f);
    LabelsDisjoint();
    if e.failure.Some? then Preprocessed(e.frame, Raised(e.failure.value))
    else OneHotAndAlign(e.frame, trainColumns)
  }

  /**
   * The column steps of `preprocess_input`, as a function of the caller's
   * frame. The result has exactly the training columns in order; a column the
   * caller's frame kept carries its value over, and any other training column
   * that is not one of the four low-cardinality labels reads 0. On one row
   * that covers every one-hot label, such as a `CreditRating_...` column:
   * `get_dummies` made none of them.
   */
  function Preprocess(f: Frame, trainColumns: seq<string>): (p: Preprocessed)
    requires WellFormed(f)
    ensures WellFormed(p.callerFrame)
    ensures p.result.Done? <==>
              && InboundCalls in f.cells && OutboundCalls in f.cells
              && AddCells(f.cells[InboundCalls], f.cells[OutboundCalls]).Some?
              && (forall c :: c in BinaryFeatures && c in f.cells ==> BinaryCode(f.cells[c]).Some?)
              && (forall c :: c in LowCardFeatures ==> c in f.cells)
    ensures p.result.Done? && TotalCalls in trainColumns ==>
              && TotalCalls in p.result.frame.cells
              && Some(p.result.frame.cells[TotalCalls]) == AddCells(f.cells[InboundCalls], f.cells[OutboundCalls])
    ensures p.result.Done? ==> forall n :: n in trainColumns && n != TotalCalls ==>
              && n in p.result.frame.cells
              && p.result.frame.cells[n] == (if n in f.cells && n != InboundCalls && n != OutboundCalls
                                                && !(n in LowCardFeatures && f.cells[n].StrCell?)
                                             then EncodedCell(n, f.cells[n]) else IntCell(0))
    // What the caller's own object holds afterwards.
    ensures DeriveTotalCalls(f).Raised? ==> p == Preprocessed(f, Raised(DeriveTotalCalls(f).error))
    ensures DeriveTotalCalls(f).Done? && p.result.Raised? ==>
              var e := EncodeBinary(DeriveTotalCalls(f).frame, BinaryFeatures);
              && p.callerFrame == e.frame
              && (e.failure.Some? ==> p.result.error == e.failure.value)
              && (e.failure.None? ==>
                    && (p.result.error.NotInIndex? || p.result.error.NoneInIndex?)
                    && forall c :: c in p.result.error.labels <==> c in LowCardFeatures && c !in f.cells)
    ensures p.result.Done? ==> InboundCalls !in p.callerFrame.names && OutboundCalls !in p.callerFrame.names
    ensures p.result.Done? ==>
              && TotalCalls in p.callerFrame.cells
              && Some(p.callerFrame.cells[TotalCalls]) == AddCells(f.cells[InboundCalls], f.cells[OutboundCalls])
    ensures p.result.Done? ==> forall n :: n in p.callerFrame.cells && n != TotalCalls ==>
              && n in f.cells && n != InboundCalls && n != OutboundCalls && n !in LowCardFeatures
              && p.callerFrame.cells[n] == EncodedCell(n, f.cells[n])
    ensures p.result.Done? ==> forall n :: n in f.cells && n != InboundCalls && n != OutboundCalls && n !in LowCardFeatures ==>
              n in p.callerFrame.cells
    ensures p.result.Done? ==> p.result.frame.names == trainColumns
    ensures p.result.Done? ==> forall c :: c in LowCardFeatures ==> c !in p.callerFrame.names
    ensures p.result.Done? ==> TotalCalls in p.callerFrame.names
    ensures p.result.Done? ==> forall n :: n in trainColumns && n in p.callerFrame.cells ==>
              n in p.result.frame.cells && p.result.frame.cells[n] == p.callerFrame.cells[n]
    ensures p.result.Done? ==> forall n :: n in trainColumns && n !in p.callerFrame.cells && n !in LowCardFeatures ==>
              n in p.result.frame.cells && p.result.frame.cells[n] == IntCell(0)
  {
    match DeriveTotalCalls(f)
    case Raised(e) => Preprocessed(f, Raised(e))
    case Done(f1) =>
      LabelsDisjoint();
      assert TotalCalls in f1.names && TotalCalls !in LowCardFeatures;
      EncodeAndAlign(f1, trainColumns)
  }

  /** A pandas DataFrame object: `drop(..., inplace=True)` and column assignment change it in place. */
  class DataFrame {
    var frame: Frame

    constructor (f: Frame)
      ensures frame == f
    {
      frame := f;
    }
  }

  /** Lines 7-8: `df['TotalCalls'] = ...` and the in-place drop of the two call columns. */
  method DeriveTotalCallsInPlace(df: DataFrame) returns (err: Option<FrameError>)
    requires WellFormed(df.frame)
    modifies df
    ensures DeriveTotalCalls(old(df.frame)).Raised? ==>
              err == Some(DeriveTotalCalls(old(df.frame)).error) && df.frame == old(df.frame)
    ensures DeriveTotalCalls(old(df.frame)).Done? ==> err.None? && df.frame == DeriveTotalCalls(old(df.frame)).frame
  {
    if InboundCalls !in df.frame.cells {
      return Some(KeyError(InboundCalls));
    }
    if OutboundCalls !in df.frame.cells {
      return Some(KeyError(OutboundCalls));
    }
    var total := AddCells(df.frame.cells[InboundCalls], df.frame.cells[OutboundCalls]);
    if total.None? {
      return Some(TypeError);
    }
    df.frame := Assign(df.frame, TotalCalls, total.value);
    df.frame := Drop(df.frame, [InboundCalls, OutboundCalls]);
    err := None;
  }

  /** Lines 18-22: the loop that encodes each present binary column in place. */
  method EncodeBinaryInPlace(df: DataFrame) returns (err: Option<FrameError>)
    requires WellFormed(df.frame)
    modifies df
    ensures Encoded(df.frame, err) == EncodeBinary(old(df.frame), BinaryFeatures)
  {
    var i := 0;
    while i < |BinaryFeatures|
      invariant 0 <= i <= |BinaryFeatures|
      invariant WellFormed(df.frame)
      invariant EncodeBinary(df.frame, BinaryFeatures[i..]) == EncodeBinary(old(df.frame), BinaryFeatures)
    {
      var col := BinaryFeatures[i];
      assert BinaryFeatures[i..][1..] == BinaryFeatures[i + 1..];
      if col in df.frame.cells {
        var code := BinaryCode(df.frame.cells[col]);
        if code.None? {
          return Some(IntCastError(col));
        }
        df.frame := Assign(df.frame, col, IntCell(code.value));
      }
      i := i + 1;
    }
    err := None;
  }

  /** Lines 25-31: the in-place drop of the four columns, then concat and reindex into a new frame. */
  method OneHotInPlace(df: DataFrame, trainColumns: seq<string>) returns (r: FrameResult)
    requires WellFormed(df.frame)
    modifies df
    ensures Preprocessed(df.frame, r) == OneHotAndAlign(old(df.frame), trainColumns)
  {
    var missing := Without(LowCardFeatures, df.frame.names);
    if forall c :: c in LowCardFeatures ==> c !in df.frame.cells {
      return Raised(NoneInIndex(LowCardFeatures));
    }
    if |missing| > 0 {
      return Raised(NotInIndex(missing));
    }
    var dummies := OneHotDropFirst(df.frame, LowCardFeatures);
    df.frame := Drop(df.frame, LowCardFeatures);
    var joined := Concat(df.frame, dummies);
    r := Done(Reindex(joined, trainColumns));
  }

  /**
   * `preprocess_input(df, train_columns)`, column steps only. The caller's
   * object is changed in place up to the one-hot step (and up to the failing
   * step when pandas raises); the returned frame is a new object.
   */
  method PreprocessInput(df: DataFrame, trainColumns: seq<string>) returns (r: FrameResult)
    requires WellFormed(df.frame)
    modifies df
    ensures df.frame == Preprocess(old(df.frame), trainColumns).callerFrame
    ensures r == Preprocess(old(df.frame), trainColumns).result
  {
    var err := DeriveTotalCallsInPlace(df);
    if err.Some? {
      return Raised(err.value);
    }
    err := EncodeBinaryInPlace(df);
    if err.Some? {
      return Raised(err.value);
    }
    r := OneHotInPlace(df, trainColumns);
  }
}
