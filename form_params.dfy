/**
 * The parameter string of a POST form, `n0=v0,n1=v1,...`, which the
 * interceptor appends to the URL before digesting it into a cache key.
 */
module FormParams {
  import opened Wrappers
  import opened Http

  /** One field as `name=value`. */
  function Pair(f: Field): string {
    f.name + "=" + f.value
  }

  /** The fields' pairs joined by commas, in field order, with no trailing comma. */
  function JoinFields(fields: seq<Field>): string
    requires |fields| >= 1
  {
    if |fields| == 1 then Pair(fields[0]) else Pair(fields[0]) + "," + JoinFields(fields[1..])
  }

  /** What the StringBuilder holds after appending `name=value,` for each field. */
  function Terminated(fields: seq<Field>): string {
    if fields == [] then "" else Terminated(fields[..|fields| - 1]) + Pair(fields[|fields| - 1]) + ","
  }

  /**
   * `StringBuilder.delete(start, end)` on the text `s`: an end past the text is
   * clamped to its length; a negative start, or a start past the clamped end,
   * throws StringIndexOutOfBoundsException.
   */
  function DeleteRange(s: string, start: int, end: int): (r: Result<string, Exception>)
    ensures r.Failure? <==> start < 0 || start > (if end > |s| then |s| else end)
    ensures r.Success? ==> |r.value| == |s| - ((if end > |s| then |s| else end) - start)
    ensures r.Success? ==> r.value[..start] == s[..start] && r.value[start..] == s[(if end > |s| then |s| else end)..]
  {
    var stop := if end > |s| then |s| else end;
    if start < 0 || start > stop then Failure(StringIndexOutOfBounds)
    else Success(s[..start] + s[stop..])
  }

  lemma {:induction false} JoinSnoc(fields: seq<Field>, f: Field)
    requires |fields| >= 1
    ensures JoinFields(fields + [f]) == JoinFields(fields) + "," + Pair(f)
  {
    if |fields| == 1 {
      assert (fields + [f])[1..] == [f];
    } else {
      assert (fields + [f])[1..] == fields[1..] + [f];
      JoinSnoc(fields[1..], f);
    }
  }

  /** Cutting the builder's last character leaves exactly the joined pairs. */
  lemma {:induction false} TerminatedIsJoinedPlusComma(fields: seq<Field>)
    requires |fields| >= 1
    ensures Terminated(fields) == JoinFields(fields) + ","
  {
    var n := |fields| - 1;
    if n == 0 {
      assert fields[..0] == [];
    } else {
      TerminatedIsJoinedPlusComma(fields[..n]);
      assert fields[..n] + [fields[n]] == fields;
      JoinSnoc(fields[..n], fields[n]);
    }
  }

  /** Splitting on one separator character; empty pieces are kept. */
  function Split(s: string, sep: char): (parts: seq<string>)
    ensures |parts| >= 1
  {
    if s == [] then [""]
    else
      var rest := Split(s[1..], sep);
      if s[0] == sep then [""] + rest else [[s[0]] + rest[0]] + rest[1..]
  }

  /** Reads one `name=value` piece back into a field. */
  function ParseField(piece: string): Option<Field> {
    var kv := Split(piece, '=');
    if |kv| == 2 then Some(Field(kv[0], kv[1])) else None
  }

  function ParsePieces(pieces: seq<string>): Option<seq<Field>> {
    if pieces == [] then Some([])
    else
      var head, tail := ParseField(pieces[0]), ParsePieces(pieces[1..]);
      if head.Some? && tail.Some? then Some([head.value] + tail.value) else None
  }

  /** Splits a parameter string on `,` and each piece on `=`. */
  function ParseParams(s: string): Option<seq<Field>> {
    ParsePieces(Split(s, ','))
  }

  /** A field neither of whose parts contains a separator. */
  predicate Clean(f: Field) {
    '=' !in f.name && ',' !in f.name && '=' !in f.value && ',' !in f.value
  }

  lemma {:induction false} SplitWithout(a: string, sep: char)
    requires sep !in a
    ensures Split(a, sep) == [a]
  {
    if a != [] {
      SplitWithout(a[1..], sep);
      assert [a[0]] + a[1..] == a;
    }
  }

  lemma {:induction false} SplitAt(a: string, b: string, sep: char)
    requires sep !in a
    ensures Split(a + [sep] + b, sep) == [a] + Split(b, sep)
  {
    if a == [] {
      assert a + [sep] + b == [sep] + b;
      assert ([sep] + b)[1..] == b;
    } else {
      var s := a + [sep] + b;
      assert s[1..] == a[1..] + [sep] + b;
      SplitAt(a[1..], b, sep);
      assert [a[0]] + a[1..] == a;
    }
  }

  lemma PairParses(f: Field)
    requires Clean(f)
    ensures ',' !in Pair(f)
    ensures ParseField(Pair(f)) == Some(f)
  {
    assert Pair(f) == f.name + ['='] + f.value;
    SplitAt(f.name, f.value, '=');
    SplitWithout(f.value, '=');
  }

  lemma ParseOne(piece: string, f: Field)
    requires ParseField(piece) == Some(f)
    ensures ParsePieces([piece]) == Some([f])
  {
    var none: seq<string> := [];
    assert [piece][1..] == none && ParsePieces(none) == Some([]);
    var head, tail := ParseField([piece][0]), ParsePieces([piece][1..]);
    assert [head.value] + tail.value == [f];
  }

  /**
   * When no name or value contains `=` or `,`, splitting the parameter string
   * on `,` and then `=` gives the fields back, in order.
   */
  lemma {:induction false} ParamsRoundTrip(fields: seq<Field>)
    requires |fields| >= 1
    requires forall i :: 0 <= i < |fields| ==> Clean(fields[i])
    ensures ParseParams(JoinFields(fields)) == Some(fields)
  {
    PairParses(fields[0]);
    if |fields| == 1 {
      SplitWithout(Pair(fields[0]), ',');
      ParseOne(Pair(fields[0]), fields[0]);
      assert fields == [fields[0]];
    } else {
      var rest := fields[1..];
      ParamsRoundTrip(rest);
      assert JoinFields(fields) == Pair(fields[0]) + [','] + JoinFields(rest);
      SplitAt(Pair(fields[0]), JoinFields(rest), ',');
      assert ([Pair(fields[0])] + Split(JoinFields(rest), ','))[1..] == Split(JoinFields(rest), ',');
      assert [fields[0]] + rest == fields;
    }
  }
}
