/**
 * The dataset a report is built from: a pandas DataFrame indexed by
 * timestamps (here whole seconds since a midnight-aligned epoch), the 0/1
 * fault flag column written by the rule engine, and the named sensor columns.
 */
module Data {
  import opened Wrappers
  import opened Series

  datatype Frame = Frame(index: seq<int>, flag: seq<Flag>, columns: map<string, seq<real>>)

  /** The error raised when the report reads a column the frame does not have (a `KeyError`). */
  datatype ColumnError = MissingColumn(name: string)

  /** Every column of a DataFrame shares its index. */
  predicate Aligned(f: Frame)
  {
    && |f.flag| == |f.index|
    && forall c :: c in f.columns ==> |f.columns[c]| == |f.index|
  }

  /** The timestamp index is strictly increasing. */
  predicate StrictlyIncreasing(index: seq<int>)
  {
    forall i :: 0 < i < |index| ==> index[i - 1] < index[i]
  }

  /** The frame has every one of `names`. */
  predicate HasColumns(names: seq<string>, f: Frame)
  {
    forall i :: 0 <= i < |names| ==> names[i] in f.columns
  }

  lemma HasColumnsAppend(a: seq<string>, b: seq<string>, f: Frame)
    ensures HasColumns(a + b, f) <==> HasColumns(a, f) && HasColumns(b, f)
  {
    if HasColumns(a + b, f) {
      forall i | 0 <= i < |a| ensures a[i] in f.columns {
        assert a[i] == (a + b)[i];
      }
      forall i | 0 <= i < |b| ensures b[i] in f.columns {
        assert b[i] == (a + b)[|a| + i];
      }
    }
    if HasColumns(a, f) && HasColumns(b, f) {
      forall i | 0 <= i < |a + b| ensures (a + b)[i] in f.columns {
        if i >= |a| { assert (a + b)[i] == b[i - |a|]; }
      }
    }
  }

  /** The first of `names`, in the order they are read, that the frame lacks. */
  function FirstMissing(names: seq<string>, f: Frame): (r: Option<string>)
    ensures r.None? <==> forall i :: 0 <= i < |names| ==> names[i] in f.columns
    ensures r.Some? ==> exists i :: 0 <= i < |names| && names[i] == r.value && r.value !in f.columns
                                    && forall j :: 0 <= j < i ==> names[j] in f.columns
  {
    if names == [] then None
    else if names[0] !in f.columns then Some(names[0])
    else
      var r := FirstMissing(names[1..], f);
      assert r.Some? ==> exists i :: 1 <= i < |names| && names[i] == r.value && r.value !in f.columns
                                     && forall j :: 0 <= j < i ==> names[j] in f.columns by {
        if r.Some? {
          var k :| 0 <= k < |names| - 1 && names[1..][k] == r.value && r.value !in f.columns
                   && forall j :: 0 <= j < k ==> names[1..][j] in f.columns;
          assert forall j :: 0 <= j < k + 1 ==> names[j] in f.columns by {
            forall j | 0 <= j < k + 1 ensures names[j] in f.columns {
              if j > 0 { assert names[j] == names[1..][j - 1]; }
            }
          }
        }
      }
      r
  }

  /** Reading `x` then `rest` fails at `x` when it is missing, else wherever `rest` fails. */
  lemma FirstMissingCons(x: string, rest: seq<string>, f: Frame)
    ensures FirstMissing([x] + rest, f) == if x !in f.columns then Some(x) else FirstMissing(rest, f)
  {
    assert ([x] + rest)[1..] == rest;
  }

  /** Reading `a` then `b` fails at the first missing name of `a`, else at that of `b`. */
  lemma {:induction false} FirstMissingAppend(a: seq<string>, b: seq<string>, f: Frame)
    ensures FirstMissing(a + b, f) == if FirstMissing(a, f).Some? then FirstMissing(a, f) else FirstMissing(b, f)
  {
    if a != [] {
      assert (a + b)[1..] == a[1..] + b;
      FirstMissingAppend(a[1..], b, f);
    } else {
      assert a + b == b;
    }
  }
}
