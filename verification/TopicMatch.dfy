/** Matching topics and subscription filters against the patterns of the access rules. */
module TopicMatch {

  // ---------------------------------------------------------------------------
  // Levels
  // ---------------------------------------------------------------------------

  /** The levels of a topic: what lies between its slashes. */
  function Levels(s: string): (ls: seq<string>)
    ensures ls != []
  {
    if s == "" then [""]
    else if s[0] == '/' then [""] + Levels(s[1..])
    else
      var rest := Levels(s[1..]);
      [[s[0]] + rest[0]] + rest[1..]
  }

  function Join(ls: seq<string>): string {
    if ls == [] then "" else if |ls| == 1 then ls[0] else ls[0] + "/" + Join(ls[1..])
  }

  lemma {:induction false} JoinLevels(s: string)
    ensures Join(Levels(s)) == s
  {
    if s != "" {
      JoinLevels(s[1..]);
      var rest := Levels(s[1..]);
      if s[0] != '/' {
        assert Levels(s)[1..] == rest[1..];
        assert [s[0]] + s[1..] == s;
      } else {
        assert Levels(s)[1..] == rest;
      }
    }
  }

  /** A level followed by a slash or the end. */
  lemma {:induction false} LevelsOf(level: string, rest: string)
    requires '/' !in level
    ensures Levels(level) == [level]
    ensures Levels(level + "/" + rest) == [level] + Levels(rest)
  {
    if level == "" {
      assert level + "/" + rest == "/" + rest && ("/" + rest)[1..] == rest;
    } else {
      var s := level + "/" + rest;
      assert s[1..] == level[1..] + "/" + rest;
      LevelsOf(level[1..], rest);
      assert [level[0]] + level[1..] == level;
    }
  }

  lemma {:induction false} LevelsJoin(ls: seq<string>)
    requires ls != [] && forall i :: 0 <= i < |ls| ==> '/' !in ls[i]
    ensures Levels(Join(ls)) == ls
  {
    if |ls| == 1 {
      LevelsOf(ls[0], "");
    } else {
      LevelsJoin(ls[1..]);
      LevelsOf(ls[0], Join(ls[1..]));
    }
  }

  method FindSlash(value: string, start: nat) returns (slash: nat)
    requires start <= |value|
    ensures start <= slash <= |value| && '/' !in value[start..slash]
    ensures slash < |value| ==> value[slash] == '/'
  {
    slash := start;
    while slash < |value| && value[slash] != '/'
      invariant start <= slash <= |value| && '/' !in value[start..slash]
    {
      slash := slash + 1;
    }
  }

  lemma NextLevel(value: string, start: nat, slash: nat, levels: seq<string>)
    requires start <= slash <= |value| && '/' !in value[start..slash] && (slash < |value| ==> value[slash] == '/')
    ensures levels + Levels(value[start..]) ==
            levels + [value[start..slash]] + if slash < |value| then Levels(value[slash + 1..]) else []
  {
    var level := value[start..slash];
    if slash == |value| {
      assert level == value[start..];
      LevelsOf(level, "");
    } else {
      assert value[start..] == level + "/" + value[slash + 1..];
      LevelsOf(level, value[slash + 1..]);
    }
  }

  /** The splitting loop: from each start, up to the next slash. */
  method SplitTopicLevels(value: string) returns (levels: seq<string>)
    ensures levels == Levels(value)
  {
    levels := [];
    var start := 0;
    assert value[0..] == value && [] + Levels(value) == Levels(value);
    while start <= |value|
      invariant start <= |value| + 1
      invariant Levels(value) == levels + if start <= |value| then Levels(value[start..]) else []
      decreases |value| + 1 - start
    {
      var slash := FindSlash(value, start);
      NextLevel(value, start, slash, levels);
      levels := levels + [value[start..slash]];
      start := slash + 1;
    }
  }

  // ---------------------------------------------------------------------------
  // Matching
  // ---------------------------------------------------------------------------

  function MatchLevels(t: seq<string>, p: seq<string>): bool {
    if p == [] then t == []
    else if p[0] == "#" then |p| == 1
    else t != [] && t[0] != "#" && (p[0] == "+" || p[0] == t[0]) && MatchLevels(t[1..], p[1..])
  }

  function Match(topic: string, pattern: string): bool {
    && topic != "" && pattern != "" && !(topic[0] == '$' && pattern[0] != '$')
    && MatchLevels(Levels(topic), Levels(pattern))
  }

  method MatchTopicPattern(topic: string, pattern: string) returns (r: bool)
    ensures r == Match(topic, pattern)
  {
    if topic == "" || pattern == "" { return false; }
    if topic[0] == '$' && pattern[0] != '$' { return false; }
    var requested := SplitTopicLevels(topic);
    var allowed := SplitTopicLevels(pattern);
    for i := 0 to |allowed|
      invariant i <= |requested|
      invariant MatchLevels(requested, allowed) == MatchLevels(requested[i..], allowed[i..])
    {
      if allowed[i] == "#" { return i + 1 == |allowed|; }
      if i >= |requested| || requested[i] == "#" { return false; }
      if allowed[i] != "+" && allowed[i] != requested[i] { return false; }
    }
    return |allowed| == |requested|;
  }

  lemma {:induction false} LevelsTransitive(t: seq<string>, f: seq<string>, p: seq<string>)
    requires MatchLevels(t, f) && MatchLevels(f, p)
    ensures MatchLevels(t, p)
  {
    if p != [] && p[0] != "#" { LevelsTransitive(t[1..], f[1..], p[1..]); }
  }

  /** A pattern that accepts a filter covers everything the filter covers, for all strings. */
  lemma MatchTransitive(t: string, f: string, p: string)
    requires Match(t, f) && Match(f, p)
    ensures Match(t, p)
  {
    LevelsTransitive(Levels(t), Levels(f), Levels(p));
  }

  // ---------------------------------------------------------------------------
  // Section 4.7 of MQTT Version 5.0
  // ---------------------------------------------------------------------------

  predicate Plain(level: string) { '/' !in level && '+' !in level && '#' !in level }

  predicate TopicName(t: string) { t != "" && '+' !in t && '#' !in t }

  /** Wildcards stand for whole levels, and the multi-level one comes last. */
  predicate WellFormedLevels(f: seq<string>) {
    forall i :: 0 <= i < |f| ==> f[i] == "+" || (f[i] == "#" && i == |f| - 1) || Plain(f[i])
  }

  predicate WellFormed(f: string) { f != "" && WellFormedLevels(Levels(f)) }

  predicate LevelCovered(t: string, f: string) { f == "+" || f == t }

  /** `#` stands for the parent and any number of child levels. */
  predicate Covered(t: seq<string>, f: seq<string>) {
    if f != [] && f[|f| - 1] == "#"
    then |t| >= |f| - 1 && forall i :: 0 <= i < |f| - 1 ==> LevelCovered(t[i], f[i])
    else |t| == |f| && forall i :: 0 <= i < |f| ==> LevelCovered(t[i], f[i])
  }

  /** Wildcards at the start of a filter do not reach topics that begin with `$`. */
  predicate Matches47(t: string, f: string)
    requires t != "" && f != ""
  {
    !(t[0] == '$' && (f[0] == '+' || f[0] == '#')) && Covered(Levels(t), Levels(f))
  }

  lemma {:induction false} LevelChars(s: string, i: nat, c: char)
    requires i < |Levels(s)| && c in Levels(s)[i]
    ensures c in s && c != '/'
  {
    if s != "" {
      if s[0] == '/' {
        LevelChars(s[1..], i - 1, c);
      } else if i > 0 {
        LevelChars(s[1..], i, c);
      } else if c != s[0] {
        LevelChars(s[1..], 0, c);
      }
    }
  }

  lemma TopicLevelsPlain(t: string)
    requires TopicName(t)
    ensures forall i :: 0 <= i < |Levels(t)| ==> Plain(Levels(t)[i])
  {
    forall i | 0 <= i < |Levels(t)| ensures Plain(Levels(t)[i]) {
      forall c | c in Levels(t)[i] ensures c in t && c != '/' { LevelChars(t, i, c); }
    }
  }

  lemma {:induction false} LevelsMeet47(t: seq<string>, f: seq<string>)
    requires WellFormedLevels(f) && forall i :: 0 <= i < |t| ==> Plain(t[i])
    ensures MatchLevels(t, f) <==> Covered(t, f)
  {
    if f != [] && f[0] != "#" && t != [] {
      LevelsMeet47(t[1..], f[1..]);
      assert f[1..] != [] ==> f[1..][|f| - 2] == f[|f| - 1];
      assert forall i :: 1 <= i < |f| ==> f[1..][i - 1] == f[i];
      assert forall i :: 1 <= i < |t| ==> t[1..][i - 1] == t[i];
    }
  }

  lemma FirstLevel(s: string)
    requires s != ""
    ensures if s[0] == '/' then Levels(s)[0] == "" else Levels(s)[0] != "" && Levels(s)[0][0] == s[0]
  {}

  /** On topic names and well-formed filters the matcher is the standard's definition. */
  lemma MatchMeets47(t: string, f: string)
    requires TopicName(t) && WellFormed(f)
    ensures Match(t, f) <==> Matches47(t, f)
  {
    TopicLevelsPlain(t);
    LevelsMeet47(Levels(t), Levels(f));
    FirstLevel(t);
    FirstLevel(f);
    if t[0] == '$' && f[0] != '$' && Matches47(t, f) {
      assert LevelCovered(Levels(t)[0], Levels(f)[0]);
    }
  }

  // ---------------------------------------------------------------------------
  // Acceptance is coverage
  // ---------------------------------------------------------------------------

  /** A topic of the filter: its single-level wildcards read as `w`, its `#` as nothing. */
  function Instance(f: seq<string>, w: string): seq<string> {
    if f == [] || f[0] == "#" then [] else [if f[0] == "+" then w else f[0]] + Instance(f[1..], w)
  }

  lemma {:induction false} InstanceMatches(f: seq<string>, w: string)
    requires WellFormedLevels(f) && Plain(w)
    ensures MatchLevels(Instance(f, w), f) && forall i :: 0 <= i < |Instance(f, w)| ==> Plain(Instance(f, w)[i])
  {
    if f != [] && f[0] != "#" {
      InstanceMatches(f[1..], w);
    }
  }

  /** Below the first level, a filter the pattern does not accept has a topic it does not cover. */
  lemma {:induction false} Uncovered(f: seq<string>, p: seq<string>, w: string) returns (t: seq<string>)
    requires WellFormedLevels(f) && WellFormedLevels(p) && !MatchLevels(f, p) && Plain(w) && w !in p
    ensures MatchLevels(t, f) && !MatchLevels(t, p) && forall i :: 0 <= i < |t| ==> Plain(t[i])
    ensures f != [] && f[0] != "#" ==> t != [] && t[0] == if f[0] == "+" then w else f[0]
  {
    if f == [] {
      t := [];
    } else if f[0] == "#" {
      t := if p == [] then [w] else [];
    } else {
      var x := if f[0] == "+" then w else f[0];
      InstanceMatches(f[1..], w);
      if p != [] && (p[0] == "+" || p[0] == f[0]) {
        var rest := Uncovered(f[1..], p[1..], w);
        t := [x] + rest;
      } else {
        t := [x] + Instance(f[1..], w);
      }
    }
  }

  lemma {:induction false} JoinChars(ls: seq<string>, c: char)
    requires (forall i :: 0 <= i < |ls| ==> c !in ls[i]) && c != '/'
    ensures c !in Join(ls)
  {
    if |ls| > 1 { JoinChars(ls[1..], c); }
  }

  /** Plain levels make a topic name, unless they are just one empty level. */
  lemma JoinTopic(ls: seq<string>)
    requires ls != [] && ls != [""] && forall i :: 0 <= i < |ls| ==> Plain(ls[i])
    ensures TopicName(Join(ls)) && Levels(Join(ls)) == ls
  {
    LevelsJoin(ls);
    JoinChars(ls, '+');
    JoinChars(ls, '#');
  }

  function Longest(ls: seq<string>): nat {
    if ls == [] then 0 else var n := Longest(ls[1..]); if |ls[0]| > n then |ls[0]| else n
  }

  lemma {:induction false} LongestBounds(ls: seq<string>)
    ensures forall i :: 0 <= i < |ls| ==> |ls[i]| <= Longest(ls)
  {
    if ls != [] {
      LongestBounds(ls[1..]);
      assert forall i :: 1 <= i < |ls| ==> ls[i] == ls[1..][i - 1];
    }
  }

  /** A level no pattern level equals. */
  lemma NewLevel(p: seq<string>) returns (w: string)
    ensures Plain(w) && w !in p && w != "" && w[0] == 'x'
  {
    w := seq(Longest(p) + 1, _ => 'x');
    LongestBounds(p);
  }

  /** The filters whose `#` cannot stand for nothing, since a topic is not empty, and the patterns
      that ask for the level this leaves out. */
  predicate Exceptional(f: seq<string>, p: seq<string>) {
    || (f == ["#"] && p == ["+", "#"])
    || (f == ["", "#"] && (p == ["", "+", "#"] || p == ["+", "+", "#"]))
  }

  /** The levels of a topic that the filter matches and the pattern does not. */
  lemma UncoveredLevels(f: seq<string>, p: seq<string>, w: string) returns (t: seq<string>)
    requires WellFormedLevels(f) && WellFormedLevels(p) && !MatchLevels(f, p) && !Exceptional(f, p)
    requires f != [] && f != [""] && Plain(w) && w !in p && w != ""
    ensures MatchLevels(t, f) && !MatchLevels(t, p) && t != [] && t != [""] && forall i :: 0 <= i < |t| ==> Plain(t[i])
    ensures t[0] == w || t[0] == f[0]
  {
    if f == ["#"] {
      t := if p == ["+"] then [w, w] else [w];
    } else if f == ["", "#"] {
      t := if p == ["+", "+"] || p == ["", "+"] then ["", w, w] else ["", w];
      EmptyThenHash(p, w);
    } else {
      t := Uncovered(f, p, w);
    }
  }

  lemma EmptyThenHash(p: seq<string>, w: string)
    requires WellFormedLevels(p) && !MatchLevels(["", "#"], p) && !Exceptional(["", "#"], p) && w !in p && Plain(w)
    ensures !MatchLevels(if p == ["+", "+"] || p == ["", "+"] then ["", w, w] else ["", w], p)
  {
    if p != [] && (p[0] == "+" || p[0] == "") {
      var q := p[1..];
      assert ["", "#"][1..] == ["#"] && ["", w][1..] == [w] && ["", w, w][1..] == [w, w] && [w, w][1..] == [w];
      assert p == [p[0]] + q;
      assert !MatchLevels(["#"], q);
      if q == ["+"] {
        assert q[1..] == [] && p == [p[0], "+"];
        assert !MatchLevels([w], []);
        assert !MatchLevels([w, w], q);
      } else if q != [] && q[0] == "+" {
        var r := q[1..];
        assert q == ["+"] + r && p == [p[0]] + (["+"] + r);
        assert [w][1..] == [] && r != [] && p[2] == r[0];
        assert |p| == 3 ==> p == [p[0], p[1], p[2]];
        assert !(r[0] == "#" && |r| == 1);
        assert !MatchLevels([], r);
        assert !MatchLevels([w], q);
      }
    }
  }

  ghost predicate Covers(p: string, f: string) {
    forall t :: TopicName(t) && Match(t, f) ==> Match(t, p)
  }

  lemma NotCovered(f: string, p: string) returns (t: string)
    requires WellFormed(f) && WellFormed(p) && !Match(f, p) && !Exceptional(Levels(f), Levels(p))
    ensures TopicName(t) && Match(t, f) && !Match(t, p)
  {
    var fs, ps := Levels(f), Levels(p);
    var w := NewLevel(ps);
    var ts: seq<string>;
    JoinLevels(f);
    FirstLevel(f);
    if f[0] == '$' && p[0] != '$' {
      ts := Instance(fs, w);
      InstanceMatches(fs, w);
    } else {
      ts := UncoveredLevels(fs, ps, w);
    }
    JoinTopic(ts);
    t := Join(ts);
    FirstLevel(t);
  }

  lemma ExceptionsCovered(t: string, f: string, p: string)
    requires TopicName(t) && Match(t, f) && WellFormed(f) && WellFormed(p) && Exceptional(Levels(f), Levels(p))
    ensures Match(t, p)
  {
    var ts, fs, ps := Levels(t), Levels(f), Levels(p);
    TopicLevelsPlain(t);
    LevelsMeet47(ts, fs);
    LevelsMeet47(ts, ps);
    JoinLevels(t);
    FirstLevel(t);
    FirstLevel(f);
    FirstLevel(p);
    if fs == ["", "#"] { assert LevelCovered(ts[0], fs[0]) && |ts| >= 2; }
  }

  /** Accepting a filter is covering its topics, for well-formed filters and patterns, with exactly
      three exceptions: the pattern then covers the filter but does not accept it. */
  lemma AcceptanceIsCoverage(f: string, p: string)
    requires WellFormed(f) && WellFormed(p)
    ensures Covers(p, f) <==> Match(f, p) || Exceptional(Levels(f), Levels(p))
    ensures Exceptional(Levels(f), Levels(p)) ==> !Match(f, p)
  {
    if Match(f, p) {
      forall t | TopicName(t) && Match(t, f) ensures Match(t, p) { MatchTransitive(t, f, p); }
    } else if Exceptional(Levels(f), Levels(p)) {
      forall t | TopicName(t) && Match(t, f) ensures Match(t, p) { ExceptionsCovered(t, f, p); }
    } else {
      var t := NotCovered(f, p);
    }
    if Exceptional(Levels(f), Levels(p)) { ExceptionsRefused(Levels(f), Levels(p)); }
  }

  lemma ExceptionsRefused(f: seq<string>, p: seq<string>)
    requires Exceptional(f, p)
    ensures !MatchLevels(f, p)
  {
    if f == ["", "#"] { assert f[1..] == ["#"] && p[1..] == ["+", "#"]; }
  }
}
