/**
 * Building blocks of the request-parameter strings both entry interceptors
 * record: the `key=value` entry a parameter contributes, the entries of the
 * parameters whose value is not null, and joining strings with or without a
 * separator.
 */
module RequestParams {
  import opened Wrappers

  import opened JavaText

  /** A value is recorded only when 0 < length() < MAX_VALUE_LENGTH, in UTF-16 units. */
  const MAX_VALUE_LENGTH: nat := 100

  predicate Kept(value: string) {
    0 < Utf16Length(value) < MAX_VALUE_LENGTH
  }

  /**
   * The filter counts UTF-16 units: 99 characters of the Basic Multilingual
   * Plane are kept, while 50 supplementary characters (100 units) are dropped.
   */
  lemma KeptCountsUtf16Units(bmp: string, supplementary: string)
    requires |bmp| == 99 && forall i :: 0 <= i < |bmp| ==> bmp[i] as int <= 0xFFFF
    requires |supplementary| == 50 && forall i :: 0 <= i < |supplementary| ==> supplementary[i] as int > 0xFFFF
    ensures Kept(bmp)
    ensures !Kept(supplementary)
  {
    Utf16LengthBmp(bmp);
    Utf16LengthSupplementary(supplementary);
  }

  /** What one non-null parameter appends: `key=value`, or nothing when its value is filtered out. */
  function Entry(key: string, value: string): (e: string)
    ensures e != "" <==> Kept(value)
  {
    if Kept(value) then key + "=" + value else ""
  }

  /** One entry per parameter whose value is not null, in enumeration order. */
  function ValuedEntries(ps: seq<(string, Option<string>)>): (es: seq<string>)
    ensures |es| <= |ps|
  {
    if ps == [] then []
    else
      var last := ps[|ps| - 1];
      ValuedEntries(ps[..|ps| - 1]) + (if last.1.Some? then [Entry(last.0, last.1.value)] else [])
  }

  /** The strings one after the other. */
  function Concat(xs: seq<string>): string {
    if xs == [] then "" else Concat(xs[..|xs| - 1]) + xs[|xs| - 1]
  }

  /** The strings with `sep` between each two neighbours. */
  function Join(sep: string, xs: seq<string>): string {
    if xs == [] then ""
    else if |xs| == 1 then xs[0]
    else Join(sep, xs[..|xs| - 1]) + sep + xs[|xs| - 1]
  }

  /** The strings, each followed by `sep`. */
  function Terminated(sep: string, xs: seq<string>): string {
    if xs == [] then "" else Terminated(sep, xs[..|xs| - 1]) + xs[|xs| - 1] + sep
  }

  lemma {:induction false} TerminatedIsJoinPlusSeparator(sep: string, xs: seq<string>)
    ensures Terminated(sep, xs) == if xs == [] then "" else Join(sep, xs) + sep
    decreases |xs|
  {
    if |xs| > 1 {
      TerminatedIsJoinPlusSeparator(sep, xs[..|xs| - 1]);
    }
  }

  lemma JoinAppend(sep: string, xs: seq<string>, y: string)
    ensures Join(sep, xs + [y]) == Terminated(sep, xs) + y
  {
    TerminatedIsJoinPlusSeparator(sep, xs);
    assert (xs + [y])[..|xs|] == xs;
  }

  /** A join with a non-empty separator is empty only for no strings or one empty one. */
  lemma {:induction false} JoinEmpty(sep: string, xs: seq<string>)
    requires sep != ""
    ensures Join(sep, xs) == "" <==> xs == [] || (|xs| == 1 && xs[0] == "")
  {
    if |xs| > 1 {
      assert |Join(sep, xs)| >= |sep|;
    }
  }

  /** A concatenation is empty exactly when every piece is. */
  lemma {:induction false} ConcatEmpty(xs: seq<string>)
    ensures Concat(xs) == "" <==> forall i :: 0 <= i < |xs| ==> xs[i] == ""
    decreases |xs|
  {
    if xs != [] {
      ConcatEmpty(xs[..|xs| - 1]);
      assert forall i :: 0 <= i < |xs| - 1 ==> xs[..|xs| - 1][i] == xs[i];
    }
  }

  /** Every entry is empty. */
  ghost predicate AllEmpty(es: seq<string>) {
    forall i :: 0 <= i < |es| ==> es[i] == ""
  }

  /** Every non-null value is dropped by the length filter. */
  ghost predicate NoneKept(ps: seq<(string, Option<string>)>) {
    forall j :: 0 <= j < |ps| && ps[j].1.Some? ==> !Kept(ps[j].1.value)
  }

  /** The entries are empty strings exactly for the parameters the filter drops. */
  lemma {:induction false} ValuedEntriesEmpty(ps: seq<(string, Option<string>)>)
    ensures AllEmpty(ValuedEntries(ps)) <==> NoneKept(ps)
    decreases |ps|
  {
    if ps != [] {
      var init, last := ps[..|ps| - 1], ps[|ps| - 1];
      ValuedEntriesEmpty(init);
      assert forall j :: 0 <= j < |init| ==> init[j] == ps[j];
      assert ps == init + [last];
      var es, front := ValuedEntries(ps), ValuedEntries(init);
      var tail := if last.1.Some? then [Entry(last.0, last.1.value)] else [];
      assert es == front + tail;
      assert NoneKept(ps) <==> NoneKept(init) && (last.1.Some? ==> !Kept(last.1.value)) by {
        if NoneKept(init) && (last.1.Some? ==> !Kept(last.1.value)) {
          forall j | 0 <= j < |ps| && ps[j].1.Some?
            ensures !Kept(ps[j].1.value)
          {
            if j < |init| {
              assert init[j] == ps[j];
            }
          }
        }
      }
      assert AllEmpty(es) <==> AllEmpty(front) && AllEmpty(tail) by {
        if AllEmpty(front) && AllEmpty(tail) {
          forall i | 0 <= i < |es|
            ensures es[i] == ""
          {
            if i < |front| {
              assert es[i] == front[i];
            } else {
              assert es[i] == tail[i - |front|];
            }
          }
        }
        if AllEmpty(es) {
          assert forall i :: 0 <= i < |front| ==> es[i] == front[i];
          assert forall i :: 0 <= i < |tail| ==> es[|front| + i] == tail[i];
        }
      }
      if last.1.Some? {
        assert AllEmpty(tail) <==> tail[0] == "";
      }
    }
  }
}
