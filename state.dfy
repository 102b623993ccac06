/**
 The shared state snapshot and the cluster records derived from ARNs.
 */
module StateStore {
  import opened Events

  /** A cluster row: its full ARN and the display name taken from it. */
  datatype ClusterItem = ClusterItem(arn: string, name: string)

  /** The state snapshot: the caller's IAM ARN, once known, and the cluster ARNs. */
  datatype State = State(callerArn: Option<string>, clusterArns: seq<string>)

  /**
   Splits `s` at the first occurrence of `sep`: the text before it and the
   text after it, or `None` when `sep` does not occur.
   */
  function SplitOnce(s: string, sep: char): (r: Option<(string, string)>)
    ensures r.None? <==> sep !in s
    ensures r.Some? ==> s == r.value.0 + [sep] + r.value.1 && sep !in r.value.0
  {
    if s == [] then None
    else if s[0] == sep then Some(([], s[1..]))
    else match SplitOnce(s[1..], sep)
      case None => None
      case Some((before, after)) => Some(([s[0]] + before, after))
  }

  /** A split at the first separator is the only one: any decomposition with a separator-free prefix is it. */
  lemma {:induction false} SplitOnceUnique(s: string, sep: char, before: string, after: string)
    requires s == before + [sep] + after && sep !in before
    ensures SplitOnce(s, sep) == Some((before, after))
  {
    if before == [] {
      assert s[0] == sep && s[1..] == after;
    } else {
      assert s[0] == before[0] != sep;
      assert s[1..] == before[1..] + [sep] + after;
      SplitOnceUnique(s[1..], sep, before[1..], after);
      assert [s[0]] + before[1..] == before;
    }
  }

  /**
   Builds a cluster row from its ARN: the ARN is kept verbatim and the name is
   everything after the first `/`. An ARN without `/` makes the source's
   `unwrap` panic, hence the precondition.
   */
  function ClusterItemFrom(arn: string): (item: ClusterItem)
    requires '/' in arn
    ensures item.arn == arn
    ensures |item.name| < |arn|
    ensures exists k :: 0 <= k < |arn| && arn[k] == '/' && '/' !in arn[..k] && item.name == arn[k + 1..]
  {
    var (prefix, name) := SplitOnce(arn, '/').value;
    assert arn[..|prefix|] == prefix && arn[|prefix| + 1..] == name;
    ClusterItem(arn, name)
  }

  /** The ARN is the separator-free prefix, a `/`, and the name; and that prefix is determined by the ARN. */
  lemma ClusterItemDecomposes(arn: string)
    requires '/' in arn
    ensures var prefix := arn[..|arn| - |ClusterItemFrom(arn).name| - 1];
      arn == prefix + "/" + ClusterItemFrom(arn).name && '/' !in prefix
  {
    var (prefix, name) := SplitOnce(arn, '/').value;
    SplitOnceUnique(arn, '/', prefix, name);
    assert ClusterItemFrom(arn).name == name;
    assert arn[..|arn| - |name| - 1] == prefix;
  }

  /** Every ARN of the form `prefix/name` with a separator-free prefix yields exactly `name`. */
  lemma ClusterItemFromComposed(prefix: string, name: string)
    requires '/' !in prefix
    ensures ClusterItemFrom(prefix + "/" + name) == ClusterItem(prefix + "/" + name, name)
  {
    SplitOnceUnique(prefix + "/" + name, '/', prefix, name);
  }

  /** The initial snapshot: no caller identity and no clusters. */
  function DefaultState(): (s: State)
    ensures s.callerArn == None && s.clusterArns == []
  {
    State(None, [])
  }
}
