/** Topic names: "<object_type>/<segment>[/<segment>...]". */
module Topics {
  import opened Types

  const MAX_TOPIC := 512

  /** The index of the first '/', or -1. */
  function IndexSlash(s: string): (i: int)
    ensures -1 <= i < |s|
    ensures i == -1 <==> '/' !in s
    ensures i >= 0 ==> s[i] == '/' && '/' !in s[..i]
  {
    if s == [] then -1
    else if s[0] == '/' then 0
    else
      var r := IndexSlash(s[1..]);
      if r == -1 then
        assert s == [s[0]] + s[1..];
        -1
      else
        assert s[..r + 1] == [s[0]] + s[1..][..r];
        r + 1
  }

  function ParseObjectType(topic: string): Option<string> {
    if topic == "" then None
    else
      var i := IndexSlash(topic);
      if i <= 0 || i == |topic| - 1 then None else Some(topic[..i])
  }

  /** What stands before the first slash, if that is not the first character nor the last. */
  lemma ObjectTypeFacts(topic: string)
    ensures var ot := ParseObjectType(topic);
      && (ot.Some? ==> ot.value != "" && '/' !in ot.value && ot.value + "/" < topic)
      && (ot.None? ==> '/' !in topic || topic[0] == '/'
                       || (topic[|topic| - 1] == '/' && '/' !in topic[..|topic| - 1]))
  {
  }

  /** The segments between slashes; never empty. */
  function Split(s: string): (parts: seq<string>)
    ensures |parts| >= 1
    decreases |s|
  {
    var i := IndexSlash(s);
    if i == -1 then [s] else [s[..i]] + Split(s[i + 1..])
  }

  predicate IsTopicChar(c: char) {
    'a' <= c <= 'z' || 'A' <= c <= 'Z' || '0' <= c <= '9' || c == '-' || c == '_' || c == '.'
  }

  predicate IsSegment(p: string) {
    p != "" && forall i :: 0 <= i < |p| ==> IsTopicChar(p[i])
  }

  predicate ValidTopic(topic: string) {
    && topic != ""
    && |topic| <= MAX_TOPIC
    && var parts := Split(topic);
    && |parts| >= 2
    && AllSegments(parts)
  }

  function Join(parts: seq<string>): string
    requires |parts| >= 1
  {
    if |parts| == 1 then parts[0] else parts[0] + "/" + Join(parts[1..])
  }

  lemma {:induction false} JoinSplit(s: string)
    ensures Join(Split(s)) == s
    ensures forall i :: 0 <= i < |Split(s)| ==> '/' !in Split(s)[i]
    decreases |s|
  {
    var i := IndexSlash(s);
    if i != -1 {
      JoinSplit(s[i + 1..]);
      assert Split(s)[1..] == Split(s[i + 1..]);
      assert s == s[..i] + "/" + s[i + 1..];
    }
  }

  /** Every accepted topic has an object type, and it is the first segment. */
  lemma {:induction false} ValidTopicHasObjectType(topic: string)
    requires ValidTopic(topic)
    ensures ParseObjectType(topic) == Some(Split(topic)[0])
    ensures IsSegment(Split(topic)[0])
  {
    var i := IndexSlash(topic);
    assert i != -1;
    var rest := Split(topic[i + 1..]);
    assert Split(topic)[1] == rest[0];
  }

  /** Letters, digits, and three marks, by their ASCII codes. */
  predicate Unreserved(c: char) {
    var n := c as int;
    0x61 <= n <= 0x7A || 0x41 <= n <= 0x5A || 0x30 <= n <= 0x39 || n == 0x2D || n == 0x5F || n == 0x2E
  }

  lemma UnreservedIff(c: char)
    ensures Unreserved(c) <==> IsTopicChar(c)
  {
  }

  /** Legal characters, and slashes that separate: none leading, trailing or doubled. */
  predicate Separated(s: string) {
    && s != ""
    && (forall i :: 0 <= i < |s| ==> s[i] == '/' || Unreserved(s[i]))
    && s[0] != '/' && s[|s| - 1] != '/'
    && forall i :: 0 <= i < |s| - 1 ==> !(s[i] == '/' && s[i + 1] == '/')
  }

  predicate AllSegments(parts: seq<string>) {
    forall i :: 0 <= i < |parts| ==> IsSegment(parts[i])
  }

  /** A string with its first slash at k is well separated iff its head is a segment and its tail is well separated. */
  lemma SplicedIff(s: string, k: nat)
    requires k < |s| && s[k] == '/'
    requires forall i :: 0 <= i < k ==> s[i] != '/'
    ensures Separated(s) <==> IsSegment(s[..k]) && Separated(s[k + 1..])
  {
    var tail := s[k + 1..];
    assert forall i :: k < i < |s| ==> s[i] == tail[i - k - 1];
    if Separated(s) {
      forall i | 0 <= i < |tail| - 1 ensures !(tail[i] == '/' && tail[i + 1] == '/') {
        assert s[i + k + 1] == tail[i] && s[i + k + 1 + 1] == tail[i + 1];
      }
      assert tail[0] == s[k + 1];
    }
  }

  lemma AllSegmentsCons(head: string, rest: seq<string>)
    ensures AllSegments([head] + rest) <==> IsSegment(head) && AllSegments(rest)
  {
    var parts := [head] + rest;
    if AllSegments(parts) {
      assert IsSegment(parts[0]);
      forall i | 0 <= i < |rest| ensures IsSegment(rest[i]) { assert parts[i + 1] == rest[i]; }
    }
  }

  /** Segment-by-segment acceptance of any string, with no length bound and no minimum of two parts. */
  lemma {:induction false} SegmentsIff(s: string)
    ensures AllSegments(Split(s)) <==> Separated(s)
    decreases |s|
  {
    var k := IndexSlash(s);
    if k == -1 {
      assert Split(s) == [s];
      assert forall i :: 0 <= i < |s| ==> s[i] != '/';
      AllSegmentsCons(s, []);
      assert [s] + [] == [s];
    } else {
      SegmentsIff(s[k + 1..]);
      SplicedIff(s, k);
      AllSegmentsCons(s[..k], Split(s[k + 1..]));
    }
  }

  /** The validator accepts exactly the well-separated names with a slash, of at most 512 characters. */
  lemma {:induction false} ValidTopicIff(topic: string)
    ensures ValidTopic(topic) <==> |topic| <= 512 && '/' in topic && Separated(topic)
  {
    SegmentsIff(topic);
    assert |Split(topic)| >= 2 <==> '/' in topic;
  }
}
