/** The data-side helpers of the recommender: reading one client's history
    out of the transaction table, and windowing it to a fixed length. */
module Processor {

  /** `prepare_sequence`'s default window length. */
  const DefaultSeqLength: int := 80

  /** One row of the transaction table, reduced to the two columns read. */
  datatype Row = Row(customerId: string, merchantCategory: string)

  /** What opening and reading the table can produce. `ReadFails` stands for
      any exception raised while reading, after `readBefore` rows were seen. */
  datatype TransactionFile =
    | MissingFile
    | ReadFails(readBefore: seq<Row>)
    | Readable(rows: seq<Row>)

  /** One slot of a windowed history: a merchant category read from the
      table, or the integer `0` that `prepare_sequence` pads with. */
  datatype Slot = Pad | Category(name: string)

  /** The merchant categories of the rows belonging to `clientId`, in file
      order: the reference definition of the filter. */
  function Matching(rows: seq<Row>, clientId: string): (r: seq<string>)
    ensures |r| <= |rows|
    // every entry is the category of some row of that client
    ensures forall k :: 0 <= k < |r| ==>
              exists i :: 0 <= i < |rows| && rows[i].customerId == clientId && rows[i].merchantCategory == r[k]
    decreases |rows|
  {
    if |rows| == 0 then []
    else
      var earlier := Matching(rows[..|rows| - 1], clientId);
      var last := rows[|rows| - 1];
      assert forall i :: 0 <= i < |rows| - 1 ==> rows[..|rows| - 1][i] == rows[i];
      if last.customerId == clientId then earlier + [last.merchantCategory] else earlier
  }

  /** The filter distributes over concatenation of the table: together with
      its value on a single row this pins it down as an order-preserving
      filter. */
  lemma {:induction false} MatchingConcat(a: seq<Row>, b: seq<Row>, clientId: string)
    ensures Matching(a + b, clientId) == Matching(a, clientId) + Matching(b, clientId)
    decreases |b|
  {
    if |b| == 0 {
      assert a + b == a;
    } else {
      var b' := b[..|b| - 1];
      assert (a + b)[..|a + b| - 1] == a + b';
      MatchingConcat(a, b', clientId);
    }
  }

  /** A category is in a client's history exactly when some row of that
      client carries it. */
  lemma {:induction false} MatchingMembers(rows: seq<Row>, clientId: string, cat: string)
    ensures cat in Matching(rows, clientId) <==>
            exists i :: 0 <= i < |rows| && rows[i].customerId == clientId && rows[i].merchantCategory == cat
    decreases |rows|
  {
    if |rows| > 0 {
      var init := rows[..|rows| - 1];
      MatchingMembers(init, clientId, cat);
      if cat in Matching(rows, clientId) {
        if cat in Matching(init, clientId) {
          var i :| 0 <= i < |init| && init[i].customerId == clientId && init[i].merchantCategory == cat;
          assert rows[i] == init[i];
        } else {
          assert rows[|rows| - 1].customerId == clientId && rows[|rows| - 1].merchantCategory == cat;
        }
      }
      if exists i :: 0 <= i < |rows| && rows[i].customerId == clientId && rows[i].merchantCategory == cat {
        var i :| 0 <= i < |rows| && rows[i].customerId == clientId && rows[i].merchantCategory == cat;
        if i < |init| {
          assert init[i] == rows[i];
        }
      }
    }
  }

  /** The history read for one client: nothing when the file is missing or
      reading it raises (rows gathered before the error are discarded). */
  function ClientHistory(file: TransactionFile, clientId: string): (r: seq<string>)
    ensures !file.Readable? ==> r == []
    ensures file.Readable? ==> r == Matching(file.rows, clientId)
  {
    match file
    case MissingFile => []
    case ReadFails(_) => []
    case Readable(rows) => Matching(rows, clientId)
  }

  /** `get_client_transactions`: the row-by-row scan of the table. */
  method GetClientTransactions(file: TransactionFile, clientId: string) returns (transactions: seq<string>)
    ensures transactions == ClientHistory(file, clientId)
  {
    if file.MissingFile? {
      return [];
    }
    var rows := if file.Readable? then file.rows else file.readBefore;
    transactions := [];
    var i := 0;
    while i < |rows|
      invariant 0 <= i <= |rows|
      invariant transactions == Matching(rows[..i], clientId)
    {
      assert rows[..i + 1][..i] == rows[..i];
      if rows[i].customerId == clientId {
        transactions := transactions + [rows[i].merchantCategory];
      }
      i := i + 1;
    }
    assert rows[..i] == rows;
    if file.ReadFails? {
      // the exception handler drops the partial history
      transactions := [];
    }
  }

  /** Python's `s[start:]` for any integer `start`: a negative start counts
      from the end, and the result is clamped to the sequence. */
  function PySuffix<T>(s: seq<T>, start: int): (r: seq<T>)
    ensures |r| <= |s| && r == s[|s| - |r|..]
    ensures 0 <= start <= |s| ==> |r| == |s| - start
    ensures -|s| <= start < 0 ==> |r| == -start
    ensures start < -|s| ==> r == s
    ensures start > |s| ==> r == []
  {
    var i := if start < 0 then start + |s| else start;
    var j := if i < 0 then 0 else if i > |s| then |s| else i;
    s[j..]
  }

  /** `prepare_sequence(data, seqLength)`, generic in the element type, with
      `pad` the padding element. */
  function Window<T>(data: seq<T>, seqLength: int, pad: T): (r: seq<T>)
    // a positive length is always reached, whatever the input length
    ensures seqLength >= 1 ==> |r| == seqLength
    // slot by slot: pads first, then the most recent entries in order
    ensures seqLength >= 1 ==> forall i :: 0 <= i < seqLength ==>
              r[i] == if i < seqLength - |data| then pad else data[|data| - seqLength + i]
    // `data[-0:]` is the whole list, so a zero length keeps every entry
    ensures seqLength == 0 ==> r == data
  {
    if |data| == seqLength then data
    else if |data| > seqLength then PySuffix(data, -seqLength)
    else seq(seqLength - |data|, _ => pad) + data
  }

  /** An input of exactly the window length is returned unchanged. */
  lemma WindowExact<T>(data: seq<T>, pad: T)
    ensures Window(data, |data|, pad) == data
  {
  }

  /** A longer input keeps exactly its last `seqLength` entries. */
  lemma WindowKeepsLatest<T>(data: seq<T>, seqLength: int, pad: T)
    requires 1 <= seqLength < |data|
    ensures Window(data, seqLength, pad) == data[|data| - seqLength..]
  {
    var r := Window(data, seqLength, pad);
    assert forall i :: 0 <= i < seqLength ==> r[i] == data[|data| - seqLength..][i];
  }

  /** A shorter input is preceded by `seqLength - |data|` pads. */
  lemma WindowPadsShort<T>(data: seq<T>, seqLength: int, pad: T)
    requires |data| < seqLength
    ensures Window(data, seqLength, pad) == seq(seqLength - |data|, _ => pad) + data
  {
  }

  /** The empty history becomes a window made only of pads. */
  lemma WindowEmpty<T>(seqLength: int, pad: T)
    requires seqLength >= 1
    ensures Window([], seqLength, pad) == seq(seqLength, _ => pad)
  {
  }

  /** At length zero the length guarantee fails for any non-empty input:
      the whole input comes back. */
  lemma WindowZeroKeepsAll<T>(data: seq<T>, pad: T)
    requires |data| > 0
    ensures |Window(data, 0, pad)| == |data| != 0
  {
  }

  /** Windowing an already windowed sequence changes nothing. */
  lemma WindowIdempotent<T>(data: seq<T>, seqLength: int, pad: T)
    requires seqLength >= 0
    ensures Window(Window(data, seqLength, pad), seqLength, pad) == Window(data, seqLength, pad)
  {
  }

  /** `prepare_sequence` on the history of category names, at its default
      length, padding with the integer `0`. */
  function PrepareSequence(history: seq<string>): (r: seq<Slot>)
    ensures |r| == DefaultSeqLength
    ensures forall i :: 0 <= i < DefaultSeqLength ==>
              r[i] == if i < DefaultSeqLength - |history| then Pad
                      else Category(history[|history| - DefaultSeqLength + i])
  {
    Window(seq(|history|, i requires 0 <= i < |history| => Category(history[i])), DefaultSeqLength, Pad)
  }

  /** The two runs at the bottom of processor.py: `range(100)` windows to
      80 entries starting at 20, `range(50)` to 80 entries starting with a
      pad. */
  lemma DemoRuns()
    ensures var t1 := Window(seq(100, i => i), DefaultSeqLength, 0); |t1| == 80 && t1[0] == 20
    ensures var t2 := Window(seq(50, i => i), DefaultSeqLength, 0); |t2| == 80 && t2[0] == 0
  {
  }
}
