/** The string operations of the Go library that the operator's algorithms rest on. */
module Text {

  ghost predicate Free(s: string, sep: char) { sep !in s }

  ghost predicate AllFree(items: seq<string>, sep: char) { forall i <- items :: Free(i, sep) }

  /** `strings.Split` for a one-character separator. */
  function Split(s: string, sep: char): (r: seq<string>)
    ensures |r| > 0
  {
    if s == "" then [""]
    else
      var rest := Split(s[1..], sep);
      if s[0] == sep then [""] + rest else [[s[0]] + rest[0]] + rest[1..]
  }

  /** `strings.Join` for a one-character separator. */
  function Join(items: seq<string>, sep: char): string {
    if items == [] then "" else if |items| == 1 then items[0] else items[0] + [sep] + Join(items[1..], sep)
  }

  lemma {:induction false} SplitIsFree(s: string, sep: char)
    ensures AllFree(Split(s, sep), sep)
  {
    if s != "" {
      SplitIsFree(s[1..], sep);
      var rest := Split(s[1..], sep);
      forall item <- Split(s, sep) ensures Free(item, sep) {
        if s[0] == sep {
          assert item == "" || item in rest;
        } else {
          assert item == [s[0]] + rest[0] || item in rest;
          assert Free(rest[0], sep);
        }
      }
    }
  }

  lemma {:induction false} JoinAfterSplit(s: string, sep: char)
    ensures Join(Split(s, sep), sep) == s
  {
    if s != "" {
      var rest := Split(s[1..], sep);
      JoinAfterSplit(s[1..], sep);
      if s[0] == sep {
        assert ([""] + rest)[1..] == rest;
        assert s == [sep] + s[1..];
      } else {
        var first := [s[0]] + rest[0];
        assert ([first] + rest[1..])[1..] == rest[1..];
        assert s == [s[0]] + s[1..];
        if |rest| > 1 {
          assert first + [sep] + Join(rest[1..], sep) == [s[0]] + (rest[0] + [sep] + Join(rest[1..], sep));
        }
      }
    }
  }

  lemma {:induction false} SplitFreeItem(item: string, sep: char)
    requires Free(item, sep)
    ensures Split(item, sep) == [item]
  {
    if item != "" {
      SplitFreeItem(item[1..], sep);
      assert item == [item[0]] + item[1..];
    }
  }

  lemma {:induction false} SplitPrefixed(item: string, rest: string, sep: char)
    requires Free(item, sep)
    ensures Split(item + [sep] + rest, sep) == [item] + Split(rest, sep)
  {
    var s := item + [sep] + rest;
    if item == "" {
      assert s[1..] == rest;
    } else {
      assert s[1..] == item[1..] + [sep] + rest;
      SplitPrefixed(item[1..], rest, sep);
      assert item == [item[0]] + item[1..];
    }
  }

  lemma {:induction false} SplitAfterJoin(items: seq<string>, sep: char)
    requires items != [] && AllFree(items, sep)
    ensures Split(Join(items, sep), sep) == items
  {
    if |items| == 1 {
      SplitFreeItem(items[0], sep);
    } else {
      SplitAfterJoin(items[1..], sep);
      SplitPrefixed(items[0], Join(items[1..], sep), sep);
    }
  }

  /** `strings.TrimPrefix`. */
  function TrimPrefix(s: string, prefix: string): string {
    if prefix <= s then s[|prefix|..] else s
  }

  /** `strings.ReplaceAll(s, "_", "-")` followed by `strings.ToLower`, on ASCII. */
  function DashedChar(c: char): char {
    if c == '_' then '-'
    else if 'A' <= c <= 'Z' then (c as int - 'A' as int + 'a' as int) as char
    else c
  }

  function Dashed(s: string): (r: string)
    ensures |r| == |s| && forall i :: 0 <= i < |s| ==> r[i] == DashedChar(s[i])
  {
    seq(|s|, i requires 0 <= i < |s| => DashedChar(s[i]))
  }

  // --- duplicates --------------------------------------------------------------------------

  ghost predicate Distinct(s: seq<string>) {
    forall i, j :: 0 <= i < j < |s| ==> s[i] != s[j]
  }

  lemma DistinctCons(x: string, rest: seq<string>)
    ensures Distinct([x] + rest) <==> x !in rest && Distinct(rest)
  {
    var s := [x] + rest;
    if Distinct(s) {
      forall i, j | 0 <= i < j < |rest| ensures rest[i] != rest[j] {
        assert s[i + 1] != s[j + 1];
      }
      forall j | 0 <= j < |rest| ensures rest[j] != x {
        assert s[0] != s[j + 1];
      }
    }
  }

  /** Insertion into an insertion-ordered set. */
  function Insert(s: seq<string>, x: string): seq<string> {
    if x in s then s else s + [x]
  }

  /** A list without its repetitions, in order of first appearance. */
  function Dedup(s: seq<string>): (r: seq<string>)
    ensures forall x :: x in r <==> x in s
    ensures Distinct(r)
  {
    if s == [] then []
    else
      var init := Dedup(s[..|s| - 1]);
      assert s == s[..|s| - 1] + [s[|s| - 1]];
      Insert(init, s[|s| - 1])
  }
}
