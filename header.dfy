/**
 * The `Authorization` header as the token middleware reads it:
 * `req.headers.authorization.split(' ')[1]`.
 *
 * `Split` is JavaScript's `String.prototype.split` for a one-character
 * separator, `Join` its inverse (`Array.prototype.join`), and `BearerToken`
 * picks the second field, which is `undefined` when the header has no space.
 */
module Header {
  import opened Wrappers

  /** Position of the first `sep` in `s`, or `|s|` when `s` has none. */
  function IndexOf(s: string, sep: char): (i: nat)
    ensures i <= |s|
    ensures i < |s| ==> s[i] == sep
    ensures forall j :: 0 <= j < i ==> s[j] != sep
  {
    if s == [] then 0
    else if s[0] == sep then 0
    else 1 + IndexOf(s[1..], sep)
  }

  /** `s.split(sep)`: the maximal runs of `s` between occurrences of `sep`, empty runs included. */
  function Split(s: string, sep: char): (fields: seq<string>)
    ensures |fields| >= 1
    decreases |s|
  {
    var i := IndexOf(s, sep);
    if i == |s| then [s] else [s[..i]] + Split(s[i + 1..], sep)
  }

  /** No field of a split contains the separator, and there is one field exactly when the string has no separator. */
  lemma {:induction false} SplitFields(s: string, sep: char)
    ensures var fields := Split(s, sep);
      && (forall k :: 0 <= k < |fields| ==> sep !in fields[k])
      && (|fields| == 1 <==> sep !in s)
    decreases |s|
  {
    var i := IndexOf(s, sep);
    if i == |s| {
      assert forall c :: c in s ==> c != sep;
    } else {
      var head := s[..i];
      assert forall c :: c in head ==> c != sep;
      SplitFields(s[i + 1..], sep);
    }
  }

  /** `fields.join(sep)`. */
  function Join(fields: seq<string>, sep: char): string
    requires |fields| >= 1
  {
    if |fields| == 1 then fields[0] else fields[0] + [sep] + Join(fields[1..], sep)
  }

  /** The token the middleware hands to the verifier: the second space-separated field, if any. */
  function BearerToken(authorization: string): (token: Option<string>)
    ensures token.None? <==> ' ' !in authorization
    ensures token.Some? ==> ' ' !in token.value
  {
    var fields := Split(authorization, ' ');
    SplitFields(authorization, ' ');
    if |fields| >= 2 then Some(fields[1]) else None
  }

  /** One step of `Split`: the field before the first separator, then the split of the rest. */
  lemma SplitStep(s: string, sep: char)
    requires IndexOf(s, sep) < |s|
    ensures var i := IndexOf(s, sep);
      Split(s, sep) == [s[..i]] + Split(s[i + 1..], sep)
  {
  }

  /** One step of `Join`. */
  lemma JoinStep(head: string, rest: seq<string>, sep: char)
    requires |rest| >= 1
    ensures Join([head] + rest, sep) == head + [sep] + Join(rest, sep)
  {
    assert ([head] + rest)[1..] == rest;
  }

  /** Splitting loses nothing: joining the fields back gives the original string. */
  lemma {:induction false} JoinSplit(s: string, sep: char)
    ensures Join(Split(s, sep), sep) == s
    decreases |s|
  {
    var i := IndexOf(s, sep);
    if i < |s| {
      var head, tail := s[..i], s[i + 1..];
      SplitStep(s, sep);
      JoinStep(head, Split(tail, sep), sep);
      JoinSplit(tail, sep);
      assert s == head + [sep] + tail;
    }
  }

  /** The first separator is found exactly where the separator-free prefix ends. */
  lemma IndexOfAt(s: string, sep: char, i: nat)
    requires i <= |s|
    requires forall j :: 0 <= j < i ==> s[j] != sep
    requires i < |s| ==> s[i] == sep
    ensures IndexOf(s, sep) == i
  {
  }

  /** Joining separator-free fields and splitting again gives back the same fields. */
  lemma {:induction false} SplitJoin(fields: seq<string>, sep: char)
    requires |fields| >= 1
    requires forall k :: 0 <= k < |fields| ==> sep !in fields[k]
    ensures Split(Join(fields, sep), sep) == fields
    decreases |fields|
  {
    var head := fields[0];
    assert forall j :: 0 <= j < |head| ==> head[j] != sep;
    if |fields| == 1 {
      IndexOfAt(head, sep, |head|);
    } else {
      var rest := fields[1..];
      var tail := Join(rest, sep);
      var s := head + [sep] + tail;
      assert fields == [head] + rest;
      JoinStep(head, rest, sep);
      assert forall j :: 0 <= j < |head| ==> s[j] == head[j];
      IndexOfAt(s, sep, |head|);
      SplitStep(s, sep);
      assert s[..|head|] == head && s[|head| + 1..] == tail;
      SplitJoin(rest, sep);
    }
  }

  /**
   * Whatever the scheme word in front of it is, the verifier receives exactly
   * the word after the first space (up to the next space, if there is one).
   */
  lemma TokenAfterAnyScheme(scheme: string, token: string, rest: string)
    requires ' ' !in scheme && ' ' !in token
    requires rest == [] || rest[0] == ' '
    ensures BearerToken(scheme + [' '] + token + rest) == Some(token)
  {
    var header := scheme + [' '] + token + rest;
    IndexOfAt(header, ' ', |scheme|);
    var after := header[|scheme| + 1..];
    assert after == token + rest;
    IndexOfAt(after, ' ', |token|);
    assert after[..|token|] == token;
    var fields := Split(header, ' ');
    assert fields == [header[..|scheme|]] + Split(after, ' ');
    assert Split(after, ' ')[0] == token;
    assert fields[1] == token;
  }

  /**
   * A header without a space (a bare token, or a bare scheme word) carries no
   * token: the named corollary of one direction of `BearerToken`'s contract.
   */
  lemma NoSpaceNoToken(authorization: string)
    requires ' ' !in authorization
    ensures BearerToken(authorization) == None
  {
  }
}
