/** What `main` in test.py does with the downloaded closes: nothing when the
    download is empty, otherwise the last five rows of the Close, SMA20 and
    RSI14 columns of the indicator frame, oldest first. Downloading,
    reading the command line and printing are outside the model: the ticker
    and the closes are parameters and the table is the result. */
module Report {
  import opened Floats
  import opened Indicators

  /** One printed row, its columns in the order Close, SMA20, RSI14. */
  datatype Row = Row(close: real, sma20: Option<real>, rsi14: Float)

  datatype Output = NoData(ticker: string) | Table(rows: seq<Row>)

  const TailRows: nat := 5

  /** `frame[["Close", "SMA20", "RSI14"]]`, read row by row. */
  function SelectColumns(f: Frame): (rows: seq<Row>)
    requires f.Aligned()
    ensures |rows| == |f.close|
    ensures forall i :: 0 <= i < |rows| ==>
      rows[i] == Row(f.close[i], f.sma20[i], f.rsi14[i])
  {
    seq(|f.close|, i requires 0 <= i < |f.close| => Row(f.close[i], f.sma20[i], f.rsi14[i]))
  }

  function MinNat(a: nat, b: nat): nat { if a <= b then a else b }

  /** `rows.tail(n)`: the last min(n, |rows|) rows, in their original order. */
  function Tail<T>(rows: seq<T>, n: nat): (t: seq<T>)
    ensures |t| == MinNat(n, |rows|)
    ensures forall j :: 0 <= j < |t| ==> t[j] == rows[|rows| - |t| + j]
  {
    if |rows| <= n then rows else rows[|rows| - n..]
  }

  /** `main` after the download: a "no data" report for an empty download,
      otherwise the last five rows of the indicator table. */
  function Run(ticker: string, close: seq<real>): (out: Output)
    ensures out.NoData? <==> close == []
    ensures out.NoData? ==> out.ticker == ticker
    ensures out.Table? ==> |out.rows| == MinNat(TailRows, |close|)
    ensures out.Table? ==> forall j :: 0 <= j < |out.rows| ==>
      var i := |close| - |out.rows| + j;
      out.rows[j] == Row(close[i], Sma20(close)[i], Rsi14(close)[i])
  {
    if close == [] then NoData(ticker)
    else Table(Tail(SelectColumns(ComputeIndicators(close)), TailRows))
  }

  /** The printed rows are the last min(5, n) closes, oldest first, each
      beside its own indicators: SMA20 is present exactly for positions from
      19 on and RSI14 is "no value" before position 14 and otherwise lies
      in [0, 100]. */
  lemma RunRows(ticker: string, close: seq<real>, j: nat)
    requires close != [] && j < MinNat(TailRows, |close|)
    ensures Run(ticker, close).Table?
    ensures
      var rows := Run(ticker, close).rows;
      var i := |close| - |rows| + j;
      && 0 <= i < |close|
      && rows[j].close == close[i]
      && (rows[j].sma20.Some? <==> i >= 19)
      && (i < 14 ==> rows[j].rsi14 == NaN)
      && (rows[j].rsi14.Finite? ==> 0.0 <= rows[j].rsi14.v <= 100.0)
      && !rows[j].rsi14.PosInf? && !rows[j].rsi14.NegInf?
  {
    var rows := Run(ticker, close).rows;
    var i := |close| - |rows| + j;
    assert rows[j] == Row(close[i], Sma20(close)[i], Rsi14(close)[i]);
    SmaAt(close, i);
    RsiAt(close, i);
    RsiRange(close, i);
  }
}
