/**
 * How a flushed batch becomes one stored blob: `batch.join("\n")`.  `Split`
 * is how a reader of the blob cuts it back into records (Rust's
 * `str::split('\n')`); it recovers the batch exactly when no record holds a
 * newline.
 */
module BatchBlob {

  const SEPARATOR := '\n'

  function Join(records: seq<string>): (blob: string)
    ensures records == [] ==> blob == ""
    ensures |records| == 1 ==> blob == records[0]
  {
    if records == [] then ""
    else if |records| == 1 then records[0]
    else records[0] + [SEPARATOR] + Join(records[1..])
  }

  /** The pieces of `s` between separators; never empty (the empty blob is one empty piece). */
  function Split(s: string): (parts: seq<string>)
    ensures |parts| >= 1
    decreases |s|
  {
    if s == [] then [""]
    else
      var rest := Split(s[1..]);
      if s[0] == SEPARATOR then [""] + rest else [[s[0]] + rest[0]] + rest[1..]
  }

  lemma {:induction false} SplitLine(line: string, tail: string)
    requires SEPARATOR !in line
    ensures Split(line) == [line]
    ensures Split(line + [SEPARATOR] + tail) == [line] + Split(tail)
    decreases |line|
  {
    if line != [] {
      SplitLine(line[1..], tail);
      assert (line + [SEPARATOR] + tail)[1..] == line[1..] + [SEPARATOR] + tail;
      assert [line[0]] + line[1..] == line;
    } else {
      assert (line + [SEPARATOR] + tail)[1..] == tail;
    }
  }

  /** A non-empty batch of newline-free records is recovered from its blob. */
  lemma {:induction false} SplitJoin(records: seq<string>)
    requires records != []
    requires forall i :: 0 <= i < |records| ==> SEPARATOR !in records[i]
    ensures Split(Join(records)) == records
  {
    if |records| == 1 {
      SplitLine(records[0], "");
    } else {
      SplitLine(records[0], Join(records[1..]));
      SplitJoin(records[1..]);
      assert [records[0]] + records[1..] == records;
    }
  }

  /** The blob of three records is the records with a newline between each pair. */
  lemma JoinThree(a: string, b: string, c: string)
    ensures Join([a, b, c]) == a + "\n" + b + "\n" + c
  {
    assert [a, b, c][1..] == [b, c];
    assert [b, c][1..] == [c];
  }

  /** The flush of the batch ["a", "b", "c"] stores the blob "a\nb\nc". */
  lemma JoinOfThreeLetters()
    ensures Join(["a", "b", "c"]) == "a\nb\nc"
  {
    JoinThree("a", "b", "c");
    assert "a" + "\n" + "b" + "\n" + "c" == "a\nb\nc";
  }

  /** Without escaping, a record that holds a newline is indistinguishable from two records. */
  lemma NewlineInRecordIsAmbiguous()
    ensures Join(["a\nb"]) == Join(["a", "b"])
  {
    assert ["a", "b"][1..] == ["b"];
  }
}
