/**
 * The push-payload normaliser: a raw tick string is split on whitespace, the
 * date-time token and the price token are read by position, and each record
 * that parses is stamped with the next value of a counter that starts at 0.
 */
module TransactionProcessing {
  import opened Common
  import opened PyStr

  /** A value in a transaction record (a Python `dict` of strings and one integer). */
  datatype Field = Text(text: string) | Number(n: int)

  type Record = map<string, Field>

  /** `TransactionProcessor.parse`: token 2 is the date-time sequence and token 4
      the price; fewer than five tokens is an `IndexError`. The tokens are those of
      `' '.join(s.split()).split(' ')`; the contract states the result in terms of
      `s.split()` alone. */
  function Parse(transaction: string): (r: Result<Record>)
    ensures r.Ok? <==> |Split(transaction)| >= 5
    ensures r.Err? ==> r.fault == IndexError
    ensures r.Ok? ==> r.value.Keys == {"date_time_seq", "price"}
    ensures r.Ok? ==> r.value["date_time_seq"] == Text(Split(transaction)[2])
    ensures r.Ok? ==> r.value["price"] == Text(Split(transaction)[4])
    ensures r.Ok? ==> IsWord(r.value["date_time_seq"].text) && IsWord(r.value["price"].text)
  {
    TokensOfSplit(transaction);
    var asList := Tokens(transaction);
    if |asList| <= 2 then Err(IndexError)
    else if |asList| <= 4 then Err(IndexError)
    else Ok(map["date_time_seq" := Text(asList[2]), "price" := Text(asList[4])])
  }

  /** `TransactionProcessor.send`: forwarding is a stub that always reports success. */
  function Send(transaction: Record): (sent: bool)
    ensures sent
  {
    true
  }

  /** One `process` call from counter position `next`: the record and the next counter position.
      Parsing happens before the counter is advanced, so a payload that fails to parse
      consumes no number. */
  function ProcessStep(next: nat, source: string): (out: (Result<Record>, nat))
    ensures out.0.Ok? <==> Parse(source).Ok?
    ensures out.0.Err? ==> out.0 == Parse(source) && out.1 == next
    ensures out.0.Ok? ==> out.1 == next + 1
    ensures out.0.Ok? ==> out.0.value.Keys == Parse(source).value.Keys + {"seq"}
    ensures out.0.Ok? ==> out.0.value["seq"] == Number(next)
    ensures out.0.Ok? ==> forall k :: k in Parse(source).value ==> out.0.value[k] == Parse(source).value[k]
  {
    match Parse(source)
    case Err(f) => (Err(f), next)
    case Ok(transaction) =>
      var stamped := transaction["seq" := Number(next)];
      var _ := Send(stamped);
      (Ok(stamped), next + 1)
  }

  /** A run of `process` calls, one per source, starting at counter position `next`. */
  function Run(next: nat, sources: seq<string>): (out: (seq<Result<Record>>, nat))
    ensures |out.0| == |sources|
    ensures next <= out.1 <= next + |sources|
    decreases |sources|
  {
    if sources == [] then ([], next)
    else
      var (first, next') := ProcessStep(next, sources[0]);
      var (rest, last) := Run(next', sources[1..]);
      ([first] + rest, last)
  }

  /** The sequence numbers of the records that parsed, in call order. */
  function Numbers(results: seq<Result<Record>>): (numbers: seq<Field>)
    ensures |numbers| <= |results|
  {
    if results == [] then []
    else if results[0].Ok? && "seq" in results[0].value then [results[0].value["seq"]] + Numbers(results[1..])
    else Numbers(results[1..])
  }

  /** `Number(lo), Number(lo + 1), ..., Number(hi - 1)`. */
  function Range(lo: int, hi: int): (r: seq<Field>)
    requires lo <= hi
  {
    seq(hi - lo, i => Number(lo + i))
  }

  /** N calls from a fresh counter number their successful records 0, 1, ..., in call
      order with no gaps; failures take no number. */
  lemma {:induction false} RunNumbering(next: nat, sources: seq<string>)
    ensures next <= Run(next, sources).1
    ensures Numbers(Run(next, sources).0) == Range(next, Run(next, sources).1)
    decreases |sources|
  {
    if sources != [] {
      var first, next' := ProcessStep(next, sources[0]).0, ProcessStep(next, sources[0]).1;
      RunNumbering(next', sources[1..]);
      var rest, last := Run(next', sources[1..]).0, Run(next', sources[1..]).1;
      NumbersCons(first, rest);
      if first.Ok? {
        assert Range(next, last) == [Number(next)] + Range(next', last);
      }
    }
  }

  lemma NumbersCons(first: Result<Record>, rest: seq<Result<Record>>)
    ensures Numbers([first] + rest)
         == (if first.Ok? && "seq" in first.value then [first.value["seq"]] else []) + Numbers(rest)
  {
    assert ([first] + rest)[1..] == rest;
  }

  /** The i-th call of a run succeeds exactly when the i-th payload parses, and then
      carries that parse. */
  lemma {:induction false} RunParses(next: nat, sources: seq<string>, i: nat)
    requires i < |sources|
    ensures Run(next, sources).0[i].Ok? <==> Parse(sources[i]).Ok?
    ensures Run(next, sources).0[i].Ok? ==> Run(next, sources).0[i].value.Keys == Parse(sources[i]).value.Keys + {"seq"}
    ensures Run(next, sources).0[i].Ok? ==>
      forall k :: k in Parse(sources[i]).value ==> Run(next, sources).0[i].value[k] == Parse(sources[i]).value[k]
    decreases i
  {
    if i > 0 {
      var (first, next') := ProcessStep(next, sources[0]);
      RunParses(next', sources[1..], i - 1);
      assert Run(next, sources).0[i] == Run(next', sources[1..]).0[i - 1];
      assert sources[i] == sources[1..][i - 1];
    }
  }

  /** Whitespace runs of any length separate tokens: with five tokens, the third
      and fifth are the date-time sequence and the price. The payload is written
      gap, token, gap, ..., gap. */
  lemma ParseFiveTokens(s: string)
    requires s == "\t" + "0" + ("  " + "A" + (" " + "20200302093015" + ("\n " + "X" + ("   " + "1234.50" + " "))))
    ensures Parse(s) == Ok(map["date_time_seq" := Text("20200302093015"), "price" := Text("1234.50")])
  {
    SplitFiveTokens(s);
  }

  lemma SplitFiveTokens(s: string)
    requires s == "\t" + "0" + ("  " + "A" + (" " + "20200302093015" + ("\n " + "X" + ("   " + "1234.50" + " "))))
    ensures Split(s) == ["0", "A", "20200302093015", "X", "1234.50"]
  {
    var gaps, words := ["\t", "  ", " ", "\n ", "   ", " "], ["0", "A", "20200302093015", "X", "1234.50"];
    WeaveOfFive(gaps, words);
    LayoutOf(gaps, words);
    SplitUnique(gaps, words, s);
  }

  /** A payload of four tokens has no token 4 and raises, even though its token 1 looks
      like a date-time sequence. */
  lemma ParseFourTokensRaises(s: string)
    requires s == "  " + "A" + ("  " + "20200302093015" + ("  " + "X" + ("  " + "1234.50" + "  ")))
    ensures Parse(s) == Err(IndexError)
  {
    var gaps, words := ["  ", "  ", "  ", "  ", "  "], ["A", "20200302093015", "X", "1234.50"];
    WeaveOfFour(gaps, words);
    LayoutOf(gaps, words);
    SplitUnique(gaps, words, s);
  }

  lemma WeaveOfFive(gaps: seq<string>, words: seq<string>)
    requires |gaps| == 6 && |words| == 5
    ensures Weave(gaps, words)
         == gaps[0] + words[0] + (gaps[1] + words[1] + (gaps[2] + words[2] + (gaps[3] + words[3] + (gaps[4] + words[4] + gaps[5]))))
  {
    WeaveOfFour(gaps[1..], words[1..]);
  }

  lemma WeaveOfFour(gaps: seq<string>, words: seq<string>)
    requires |gaps| == 5 && |words| == 4
    ensures Weave(gaps, words)
         == gaps[0] + words[0] + (gaps[1] + words[1] + (gaps[2] + words[2] + (gaps[3] + words[3] + gaps[4])))
  {
    assert Weave(gaps[4..], words[4..]) == gaps[4];
    assert Weave(gaps[3..], words[3..]) == gaps[3] + words[3] + gaps[4];
    assert Weave(gaps[2..], words[2..]) == gaps[2] + words[2] + (gaps[3] + words[3] + gaps[4]);
  }

  /** The gaps and tokens of the two examples above are a layout. */
  lemma LayoutOf(gaps: seq<string>, words: seq<string>)
    requires gaps == ["\t", "  ", " ", "\n ", "   ", " "] || gaps == ["  ", "  ", "  ", "  ", "  "]
    requires |gaps| == |words| + 1
    requires forall i :: 0 <= i < |words| ==> words[i] in ["0", "A", "20200302093015", "X", "1234.50"]
    ensures Layout(gaps, words)
  {
    forall i | 0 <= i < |gaps| ensures AllSpace(gaps[i]) {
      assert gaps[i] in gaps;
    }
    forall i | 0 <= i < |words| ensures IsWord(words[i]) {
      assert words[i] in ["0", "A", "20200302093015", "X", "1234.50"];
    }
  }

  /** The processor object: `counter` is the value the next `next(self.counter)` returns. */
  class TransactionProcessor {
    var counter: nat

    constructor ()
      ensures counter == 0
    {
      counter := 0;
    }

    /** `TransactionProcessor.process`. */
    method Process(source: string) returns (r: Result<Record>)
      modifies this
      ensures (r, counter) == ProcessStep(old(counter), source)
    {
      var transaction :- Parse(source);
      transaction := transaction["seq" := Number(counter)];
      counter := counter + 1;
      var sent := Send(transaction);
      r := Ok(transaction);
    }
  }
}
