/** Failure-carrying wrappers used wherever the Python code returns None or raises. */
module Wrappers {

  datatype Option<+T> = None | Some(value: T)

  datatype Result<+T, +E> = Ok(value: T) | Err(error: E)

  datatype Outcome<+E> = Pass | Fail(error: E)

  /** Applies `f` to each element in order and collects the results, stopping at the first failure. */
  function Traverse<T, U, E>(xs: seq<T>, f: T -> Result<U, E>): Result<seq<U>, E> {
    if xs == [] then Ok([])
    else
      match Traverse(xs[..|xs| - 1], f)
      case Err(e) => Err(e)
      case Ok(us) =>
        match f(xs[|xs| - 1])
        case Err(e) => Err(e)
        case Ok(u) => Ok(us + [u])
  }

  lemma {:induction false} TraverseStep<T, U, E>(xs: seq<T>, i: nat, f: T -> Result<U, E>)
    requires i < |xs| && Traverse(xs[..i], f).Ok?
    ensures Traverse(xs[..i + 1], f) ==
              match f(xs[i])
              case Err(e) => Err(e)
              case Ok(u) => Ok(Traverse(xs[..i], f).value + [u])
  {
    assert xs[..i + 1][..i] == xs[..i];
  }

  /** The first failure is the result of the whole traversal. */
  lemma {:induction false} TraverseFailurePersists<T, U, E>(xs: seq<T>, i: nat, f: T -> Result<U, E>)
    requires i <= |xs| && Traverse(xs[..i], f).Err?
    ensures Traverse(xs, f) == Traverse(xs[..i], f)
    decreases |xs| - i
  {
    if i < |xs| {
      assert xs[..i + 1][..i] == xs[..i];
      TraverseFailurePersists(xs, i + 1, f);
    } else {
      assert xs[..i] == xs;
    }
  }

  /**
   * A traversal succeeds exactly when `f` succeeds on every element, and then holds the results
   * in element order; otherwise it fails with the failure of the first element that fails.
   */
  lemma {:induction false} TraverseMeaning<T, U, E>(xs: seq<T>, f: T -> Result<U, E>)
    ensures Traverse(xs, f).Ok? <==> forall i :: 0 <= i < |xs| ==> f(xs[i]).Ok?
    ensures Traverse(xs, f).Ok? ==>
              && |Traverse(xs, f).value| == |xs|
              && forall i :: 0 <= i < |xs| ==> Ok(Traverse(xs, f).value[i]) == f(xs[i])
    ensures Traverse(xs, f).Err? ==>
              exists k :: 0 <= k < |xs| && Err(Traverse(xs, f).error) == f(xs[k])
                && forall i :: 0 <= i < k ==> f(xs[i]).Ok?
  {
    if xs != [] {
      var n := |xs| - 1;
      var p := xs[..n];
      TraverseMeaning(p, f);
      assert forall i :: 0 <= i < |p| ==> p[i] == xs[i];
      if Traverse(p, f).Ok? && f(xs[n]).Ok? {
        var r := Traverse(xs, f).value;
        assert r == Traverse(p, f).value + [f(xs[n]).value];
        forall i | 0 <= i < |xs| ensures Ok(r[i]) == f(xs[i]) {
          if i < n {
            assert r[i] == Traverse(p, f).value[i];
          }
        }
      } else if Traverse(p, f).Err? {
        var k :| 0 <= k < |p| && Err(Traverse(p, f).error) == f(p[k]) && forall i :: 0 <= i < k ==> f(p[i]).Ok?;
        assert Err(Traverse(xs, f).error) == f(xs[k]);
      } else {
        assert Err(Traverse(xs, f).error) == f(xs[n]);
      }
    }
  }
}

/** The exceptions the modelled code raises, one constructor per raise site or failing builtin. */
module Errors {

  import Json

  datatype Exception =
    /** `Flora(flora)` with a non-string argument. */
    | FloraNotString
    /** the remote flora document answered with a status other than 200. */
    | FloraDownload(status: int)
    /** `update_datapackage` got a status other than 200 and then read the missing `self.url`. */
    | DatapackageDownload(status: int)
    /** `Flora.add` with an input that is neither MetaData, dict nor Herb. */
    | UnsupportedHerbInput
    /** `Flora.add` with an id that is already in the registry. */
    | DuplicateId(id: Json.Value)
    /** `self.flora[0]` on an empty registry. */
    | EmptyFlora
    /** `.get` or `[key]` on something that is not a dict (AttributeError, TypeError). */
    | NotADict
    /** iteration over, or `len` of, something that does not support it (TypeError). */
    | NotIterable
    /** `", ".join` over an item that is not a string (TypeError). */
    | NotAString
    /** `.append` on something that is not a list (AttributeError). */
    | NotAList
    /** `d[key]` with a missing key (KeyError). */
    | MissingKey(key: string)
    /** `len()` applied to an int while building a validation message (TypeError). */
    | LenOfInt
    /** `os.stat` or the CSV reader on a file that cannot be read. */
    | FileUnreadable(path: string)
    /** the metadata folder does not exist. */
    | FolderMissing(folder: string)
    /** the metadata file does not exist (SystemExit). */
    | MetadataFileMissing(path: string)
}
