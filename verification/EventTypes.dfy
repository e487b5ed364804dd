/** internal/service/event.go: which event types an endpoint's subscription patterns accept. */
module EventTypes {
  import opened GoStrings

  predicate MatchEventType(pattern: string, eventType: string) {
    if pattern == "*" then true
    else if HasSuffix(pattern, ".*") then HasPrefix(eventType, TrimSuffix(pattern, ".*") + ".")
    else pattern == eventType
  }

  /** The subscription as a whole: no patterns means everything. */
  predicate Subscribed(patterns: seq<string>, eventType: string) {
    patterns == [] || exists i :: 0 <= i < |patterns| && MatchEventType(patterns[i], eventType)
  }

  method MatchesEventTypes(patterns: seq<string>, eventType: string) returns (matched: bool)
    ensures matched == Subscribed(patterns, eventType)
  {
    if |patterns| == 0 {
      return true;
    }
    for i := 0 to |patterns|
      invariant forall j :: 0 <= j < i ==> !MatchEventType(patterns[j], eventType)
    {
      if MatchEventType(patterns[i], eventType) {
        return true;
      }
    }
    return false;
  }

  /** The dot-separated segments of a name. */
  function Segments(name: string): seq<string> { Split(name, '.') }

  /** "q.*" accepts exactly the names whose segments properly extend those of q, for all strings q. */
  lemma WildcardIsSegmentPrefix(q: string, eventType: string)
    ensures MatchEventType(q + ".*", eventType) <==> Segments(q) < Segments(eventType)
  {
    var pattern := q + ".*";
    assert pattern[|pattern| - 2..] == ".*" && TrimSuffix(pattern, ".*") == q;
    if HasPrefix(eventType, q + ".") {
      var rest := eventType[|q| + 1..];
      assert eventType == q + ['.'] + rest;
      SplitConcat(q, rest, '.');
    }
    if Segments(q) < Segments(eventType) {
      var rest := Segments(eventType)[|Segments(q)|..];
      JoinConcat(Segments(q), rest, '.');
      assert Segments(eventType) == Segments(q) + rest;
      JoinSplit(q, '.');
      JoinSplit(eventType, '.');
      assert eventType == q + "." + Join(rest, '.');
    }
  }

  lemma StarEndingMeansSuffix(pattern: string)
    requires |Segments(pattern)| >= 2 && Segments(pattern)[|Segments(pattern)| - 1] == "*"
    ensures HasSuffix(pattern, ".*")
  {
    var segs := Segments(pattern);
    var front := segs[..|segs| - 1];
    assert segs == front + ["*"];
    JoinSplit(pattern, '.');
    JoinConcat(front, ["*"], '.');
    assert pattern == Join(front, '.') + ".*";
  }

  /** What any pattern means, in segments: everything, a proper extension, or equality. */
  lemma MatchMeaning(pattern: string, eventType: string)
    ensures MatchEventType(pattern, eventType) <==>
      || pattern == "*"
      || (|Segments(pattern)| >= 2 && Segments(pattern)[|Segments(pattern)| - 1] == "*"
          && Segments(pattern)[..|Segments(pattern)| - 1] < Segments(eventType))
      || (pattern == eventType && !HasSuffix(pattern, ".*"))
  {
    var segs := Segments(pattern);
    JoinSplit(pattern, '.');
    if HasSuffix(pattern, ".*") {
      var q := TrimSuffix(pattern, ".*");
      assert pattern == q + ['.'] + "*";
      SplitConcat(q, "*", '.');
      SplitFree("*", '.');
      assert segs[..|segs| - 1] == Segments(q);
      WildcardIsSegmentPrefix(q, eventType);
      assert pattern == q + ".*";
    } else {
      assert |segs| >= 2 ==> segs[|segs| - 1] != "*" by {
        if |segs| >= 2 && segs[|segs| - 1] == "*" { StarEndingMeansSuffix(pattern); }
      }
    }
  }

  /** A shorter wildcard accepts everything a longer one below it accepts. */
  lemma WildcardSubsumption(q: string, r: string, eventType: string)
    requires MatchEventType(q + "." + r + ".*", eventType)
    ensures MatchEventType(q + ".*", eventType)
  {
    var qr := q + "." + r;
    assert q + "." + r + ".*" == qr + ".*";
    WildcardIsSegmentPrefix(qr, eventType);
    SplitConcat(q, r, '.');
    assert qr == q + ['.'] + r;
    WildcardIsSegmentPrefix(q, eventType);
    assert Segments(q) <= Segments(qr) <= Segments(eventType);
  }

  /** Adding patterns never loses a type, exactly unless the list was empty and the new one misses. */
  lemma AddingPatterns(patterns: seq<string>, more: seq<string>, eventType: string)
    requires Subscribed(patterns, eventType)
    ensures Subscribed(patterns + more, eventType) <==>
            (patterns != [] || more == [] || Subscribed(more, eventType))
  {
    var both := patterns + more;
    if patterns != [] {
      var i :| 0 <= i < |patterns| && MatchEventType(patterns[i], eventType);
      assert MatchEventType(both[i], eventType);
    } else {
      assert both == more;
    }
  }
}
