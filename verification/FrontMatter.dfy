/** The Markdown runbook loader: a line scanner over an optional front-matter block. */
module FrontMatter {
  import opened Text
  import opened Domain
  import opened Spelling

  /** The scanner's buffer limit: a line this long ends the scan with an error. */
  const MAX_TOKEN := 1024 * 1024

  function RawLines(text: string): seq<string>
    decreases |text|
  {
    if text == [] then []
    else
      var p := Cut(text, '\n');
      [p.before] + if p.found then RawLines(p.after) else []
  }

  /** bufio.ScanLines also drops one trailing carriage return. */
  function DropCR(line: string): string {
    if line != [] && line[|line| - 1] == '\r' then line[..|line| - 1] else line
  }

  function Lines(text: string): (r: seq<string>) {
    var raw := RawLines(text);
    seq(|raw|, i requires 0 <= i < |raw| => DropCR(raw[i]))
  }

  function Unlines(lines: seq<string>): string {
    if lines == [] then [] else Unlines(lines[..|lines| - 1]) + lines[|lines| - 1] + "\n"
  }

  predicate IsRule(line: string) {
    TrimSpace(line) == "---"
  }

  /** One `key: value` line, or None for blank lines, comments and lines without a colon. */
  function Field(line: string): Option<(string, string)> {
    var l := TrimSpace(line);
    if l == [] || l[0] == '#' || !Cut(l, ':').found then None
    else
      var p := Cut(l, ':');
      Some((TrimSpace(p.before), Trim(TrimSpace(p.after), IsQuote)))
  }

  function WithLine(rb: Runbook, line: string): Runbook {
    match Field(line)
    case None => rb
    case Some((k, v)) =>
      if k == "id" then rb.(id := v)
      else if k == "title" then rb.(title := v)
      else if k == "risk" || k == "risk_level" then
        (match ParseRiskLevel(v) case Some(r) => rb.(risk := r) case None => rb)
      else if "match." <= k then rb.(matchLabels := rb.matchLabels[k[6..] := v])
      else rb
  }

  function WithFront(rb: Runbook, front: seq<string>): Runbook {
    if front == [] then rb else WithLine(WithFront(rb, front[..|front| - 1]), front[|front| - 1])
  }

  const EMPTY := Runbook("", "", RequiresApproval, map[], "")

  predicate Opens(lines: seq<string>) {
    lines != [] && IsRule(lines[0])
  }

  /** The first rule at or after `from`, or the number of lines. */
  function RuleFrom(lines: seq<string>, from: nat): (c: nat)
    requires from <= |lines|
    ensures from <= c <= |lines|
    ensures c < |lines| ==> IsRule(lines[c])
    ensures forall i :: from <= i < c ==> !IsRule(lines[i])
    decreases |lines| - from
  {
    if from == |lines| || IsRule(lines[from]) then from else RuleFrom(lines, from + 1)
  }

  function Front(lines: seq<string>): seq<string> {
    if Opens(lines) then lines[1..RuleFrom(lines, 1)] else []
  }

  function Body(lines: seq<string>): seq<string> {
    if !Opens(lines) then lines
    else if RuleFrom(lines, 1) == |lines| then []
    else lines[RuleFrom(lines, 1) + 1..]
  }

  function WithDefaults(rb: Runbook, stem: string): Runbook {
    var named := if rb.id == "" then rb.(id := stem) else rb;
    if named.title == "" then named.(title := named.id) else named
  }

  /** The runbook a file of these lines denotes; `stem` is its name without extension. */
  function Loaded(lines: seq<string>, stem: string): Runbook {
    WithDefaults(WithFront(EMPTY, Front(lines)).(body := Unlines(Body(lines))), stem)
  }

  /** The runbook under construction. */
  class Draft {
    var id: string
    var title: string
    var risk: RiskLevel
    var matchLabels: map<string, string>
    var body: string

    constructor ()
      ensures Value() == EMPTY
    {
      id, title, risk, matchLabels, body := "", "", RequiresApproval, map[], "";
    }

    ghost function Value(): Runbook
      reads this
    {
      Runbook(id, title, risk, matchLabels, body)
    }

    method ParseFrontMatterLine(line: string)
      modifies this
      ensures Value() == WithLine(old(Value()), line)
    {
      var l := TrimSpace(line);
      if l == [] || l[0] == '#' {
        return;
      }
      var p := Cut(l, ':');
      if !p.found {
        return;
      }
      var k := TrimSpace(p.before);
      var v := Trim(TrimSpace(p.after), IsQuote);
      if k == "id" {
        id := v;
      } else if k == "title" {
        title := v;
      } else if k == "risk" || k == "risk_level" {
        var rl := ParseRiskLevel(v);
        if rl.Some? {
          risk := rl.value;
        }
      } else if "match." <= k {
        matchLabels := matchLabels[k[6..] := v];
      }
    }
  }

  /** Inside the front matter after these lines: opened and not yet closed. */
  predicate InFront(lines: seq<string>) {
    Opens(lines) && RuleFrom(lines, 1) == |lines|
  }

  lemma RuleFromStable(lines: seq<string>, l: string, from: nat)
    requires from <= |lines|
    ensures var c := RuleFrom(lines, from);
            RuleFrom(lines + [l], from) == if c < |lines| || IsRule(l) then c else c + 1
    decreases |lines| - from
  {
    hide IsRule;
    if from < |lines| && !IsRule(lines[from]) {
      RuleFromStable(lines, l, from + 1);
    }
  }

  lemma FirstLine(l: string)
    ensures if IsRule(l) then InFront([l]) && Front([l]) == [] && Body([l]) == []
            else !InFront([l]) && Front([l]) == [] && Body([l]) == [l]
  {
    hide IsRule;
    assert RuleFrom([l], 1) == 1;
  }

  lemma LaterLine(lines: seq<string>, l: string)
    requires lines != []
    ensures var next := lines + [l];
            if InFront(lines) && IsRule(l) then
              !InFront(next) && Front(next) == Front(lines) && Body(next) == Body(lines)
            else if InFront(lines) then InFront(next) && Front(next) == Front(lines) + [l] && Body(next) == Body(lines)
            else !InFront(next) && Front(next) == Front(lines) && Body(next) == Body(lines) + [l]
  {
    hide IsRule, RuleFrom;
    var next := lines + [l];
    assert next[0] == lines[0];
    if Opens(lines) {
      RuleFromStable(lines, l, 1);
      var c := RuleFrom(lines, 1);
      if c < |lines| {
        assert next[1..c] == lines[1..c] && next[c + 1..] == lines[c + 1..] + [l];
      } else if IsRule(l) {
        assert next[1..c] == lines[1..c] && next[c + 1..] == [];
      } else {
        assert next[1..c + 1] == lines[1..c] + [l];
      }
    }
  }

  /** What one more line does to the front matter and the body. */
  lemma OneMoreLine(lines: seq<string>, l: string)
    ensures var next := lines + [l];
            if lines == [] && IsRule(l) then InFront(next) && Front(next) == [] && Body(next) == []
            else if InFront(lines) && IsRule(l) then
              !InFront(next) && Front(next) == Front(lines) && Body(next) == Body(lines)
            else if InFront(lines) then InFront(next) && Front(next) == Front(lines) + [l] && Body(next) == Body(lines)
            else !InFront(next) && Front(next) == Front(lines) && Body(next) == Body(lines) + [l]
  {
    NothingScanned();
    hide IsRule, InFront, Front, Body;
    if lines == [] {
      FirstLine(l);
      assert lines + [l] == [l] && [] + [l] == [l];
    } else {
      LaterLine(lines, l);
    }
  }

  lemma NothingScanned()
    ensures Front([]) == [] && Body([]) == [] && !InFront([])
  {
  }

  /** The scanner's variables after these lines. */
  ghost predicate Scanned(lines: seq<string>, rb: Runbook, inFront: bool, started: bool, body: string) {
    && (started <==> lines != []) && (inFront <==> InFront(lines))
    && rb == WithFront(EMPTY, Front(lines)) && body == Unlines(Body(lines))
  }

  lemma WithFrontSnoc(rb: Runbook, front: seq<string>, l: string)
    ensures WithFront(rb, front + [l]) == WithLine(WithFront(rb, front), l)
  {
    assert (front + [l])[..|front|] == front;
  }

  lemma UnlinesSnoc(body: seq<string>, l: string)
    ensures Unlines(body + [l]) == Unlines(body) + l + "\n"
  {
    assert (body + [l])[..|body|] == body;
  }

  /** One turn of the scanner, branch by branch. */
  lemma ScansOn(lines: seq<string>, l: string, rb: Runbook, inFront: bool, started: bool, body: string)
    requires Scanned(lines, rb, inFront, started, body)
    ensures !started && IsRule(l) ==> Scanned(lines + [l], rb, true, true, body)
    ensures inFront && IsRule(l) ==> Scanned(lines + [l], rb, false, started, body)
    ensures inFront && !IsRule(l) ==> Scanned(lines + [l], WithLine(rb, l), true, started, body)
    ensures !inFront && (started || !IsRule(l)) ==> Scanned(lines + [l], rb, false, true, body + l + "\n")
  {
    NothingScanned();
    hide IsRule, InFront, Front, Body, WithLine, WithFront, Unlines;
    OneMoreLine(lines, l);
    WithFrontSnoc(EMPTY, Front(lines), l);
    UnlinesSnoc(Body(lines), l);
  }

  lemma ScannedNothing()
    ensures Scanned([], EMPTY, false, false, "")
  {
  }

  /** Scans the text line by line; None is the scanner's error for an over-long line. */
  method LoadFile(text: string, stem: string) returns (r: Option<Runbook>)
    ensures r.None? <==> exists raw :: raw in RawLines(text) && ByteLen(raw) >= 1024 * 1024
    ensures r.Some? ==> r.value == Loaded(Lines(text), stem)
  {
    hide TrimSpace, WithLine, ParseRiskLevel, RawLines, Scanned, DropCR, ByteLen, Loaded;
    var raw := RawLines(text);
    ghost var lines := Lines(text);
    ScannedNothing();
    assert lines[..0] == [];
    var rb := new Draft();
    var inFront, started, body := false, false, "";
    for i := 0 to |raw|
      invariant fresh(rb)
      invariant forall k :: 0 <= k < i ==> ByteLen(raw[k]) < MAX_TOKEN
      invariant Scanned(lines[..i], rb.Value(), inFront, started, body)
    {
      if ByteLen(raw[i]) >= MAX_TOKEN {
        assert raw[i] in RawLines(text);
        return None;
      }
      var line := DropCR(raw[i]);
      ScansOn(lines[..i], line, rb.Value(), inFront, started, body);
      assert lines[..i + 1] == lines[..i] + [line];
      if !started && TrimSpace(line) == "---" {
        started, inFront := true, true;
        continue;
      }
      if inFront {
        if TrimSpace(line) == "---" {
          inFront := false;
          continue;
        }
        rb.ParseFrontMatterLine(line);
        continue;
      }
      started := true;
      body := body + line + "\n";
    }
    assert lines[..|lines|] == lines;
    ghost var v := rb.Value();
    rb.body := body;
    ScannedIsLoaded(lines, v, inFront, started, body, stem);
    if rb.id == "" {
      rb.id := stem;
    }
    if rb.title == "" {
      rb.title := rb.id;
    }
    r := Some(Runbook(rb.id, rb.title, rb.risk, rb.matchLabels, rb.body));
  }

  lemma ScannedIsLoaded(lines: seq<string>, rb: Runbook, inFront: bool, started: bool, body: string, stem: string)
    requires Scanned(lines, rb, inFront, started, body)
    ensures Loaded(lines, stem) == WithDefaults(rb.(body := body), stem)
  {
    hide WithFront, Front, Body, Unlines, InFront, WithDefaults;
  }

  /** The runbooks of the directory that match the alert labels. */
  method Match(all: seq<Runbook>, labels: map<string, string>) returns (matched: seq<Runbook>)
    ensures matched == Matching(all, labels)
  {
    matched := [];
    for i := 0 to |all|
      invariant matched == Matching(all[..i], labels)
    {
      assert all[..i + 1][..i] == all[..i];
      if Matches(all[i], labels) {
        matched := matched + [all[i]];
      }
    }
    assert all[..|all|] == all;
  }

  // ----- Partition and safe default -----

  /** Every line lands, in order, in exactly one place: at most two delimiters, the front
      matter between them, and the body. */
  lemma Partition(lines: seq<string>) returns (open: seq<string>, close: seq<string>)
    ensures |open| <= 1 && |close| <= 1 && lines == open + Front(lines) + close + Body(lines)
    ensures forall l :: l in open || l in close ==> IsRule(l)
    ensures forall l :: l in Front(lines) ==> !IsRule(l)
    ensures !Opens(lines) ==> Front(lines) == [] && Body(lines) == lines
  {
    hide IsRule, RuleFrom;
    open, close := [], [];
    if Opens(lines) {
      var c := RuleFrom(lines, 1);
      open := [lines[0]];
      close := if c < |lines| then [lines[c]] else [];
    }
  }

  /** The line sets one of the two risk keys to this level, by a word for it. */
  ghost predicate SaysAuto(line: string) {
    match Field(line)
    case None => false
    case Some((k, v)) =>
      && (k == "risk" || k == "risk_level")
      && (Spells(v, "auto_remediate") || Spells(v, "auto") || Spells(v, "low"))
  }

  ghost predicate SaysApproval(line: string) {
    match Field(line)
    case None => false
    case Some((k, v)) =>
      && (k == "risk" || k == "risk_level")
      && (|| Spells(v, "requires_approval") || Spells(v, "approval") || Spells(v, "high") || Spells(v, "medium"))
  }

  /** What one line does to the risk. */
  lemma RiskOfLine(rb: Runbook, line: string)
    ensures WithLine(rb, line).risk ==
            if SaysAuto(line) then AutoRemediate else if SaysApproval(line) then RequiresApproval else rb.risk
    ensures !(SaysAuto(line) && SaysApproval(line))
  {
    hide Field, ParseRiskLevel, Spells;
    var f := Field(line);
    if f.Some? {
      RiskWordsExactly(f.value.1);
      WordsDiffer(f.value.1);
    }
  }

  /** After front-matter lines the risk is that of the last line that says one. */
  lemma {:induction false} FrontRisk(rb: Runbook, front: seq<string>)
    ensures WithFront(rb, front).risk == AutoRemediate <==>
              || (exists i :: 0 <= i < |front| && SaysAuto(front[i])
                              && forall j :: i < j < |front| ==> !SaysApproval(front[j]))
              || (rb.risk == AutoRemediate && forall j :: 0 <= j < |front| ==> !SaysApproval(front[j]))
  {
    hide Field, ParseRiskLevel, WithLine, SaysAuto, SaysApproval;
    if front != [] {
      var n := |front| - 1;
      FrontRisk(rb, front[..n]);
      RiskOfLine(WithFront(rb, front[..n]), front[n]);
      assert forall i :: 0 <= i < n ==> front[..n][i] == front[i];
    }
  }

  /** A loaded runbook allows automatic remediation only through the last risk line whose word is
      known, and only if that is a word for it. */
  lemma SafeDefault(lines: seq<string>, stem: string)
    ensures Loaded(lines, stem).risk == AutoRemediate || Loaded(lines, stem).risk == RequiresApproval
    ensures Loaded(lines, stem).risk == AutoRemediate <==>
            var front := Front(lines);
            exists i :: 0 <= i < |front| && SaysAuto(front[i])
                        && forall j :: i < j < |front| ==> !SaysApproval(front[j])
  {
    hide SaysAuto, SaysApproval, WithFront, Front;
    FrontRisk(EMPTY, Front(lines));
    FrontRiskKnown(EMPTY, Front(lines));
  }

  lemma {:induction false} FrontRiskKnown(rb: Runbook, front: seq<string>)
    requires rb.risk == AutoRemediate || rb.risk == RequiresApproval
    ensures WithFront(rb, front).risk == AutoRemediate || WithFront(rb, front).risk == RequiresApproval
  {
    hide WithLine, SaysAuto, SaysApproval;
    if front != [] {
      FrontRiskKnown(rb, front[..|front| - 1]);
      RiskOfLine(WithFront(rb, front[..|front| - 1]), front[|front| - 1]);
    }
  }

  /** A runbook whose last risk line is a word for approval is never automatic. */
  lemma LastWordDecides(lines: seq<string>, stem: string, i: nat)
    requires i < |Front(lines)| && SaysApproval(Front(lines)[i])
    requires forall j :: i < j < |Front(lines)| ==> !SaysAuto(Front(lines)[j])
    ensures Loaded(lines, stem).risk == RequiresApproval
  {
    hide SaysAuto, SaysApproval, WithFront, Front;
    SafeDefault(lines, stem);
    RiskOfLine(EMPTY, Front(lines)[i]);
  }

  // ----- What a line says -----

  /** A rule is three hyphens with nothing but white space around them. */
  lemma RuleExactly(line: string)
    ensures IsRule(line) <==> Spells(line, "---")
  {
    hide Spells, TrimSpace;
    SpellsExactly(line, "---");
    var m := TrimSpace(line);
    if ToLower(m) == "---" {
      assert forall i :: 0 <= i < 3 ==> ToLower(m)[i] == '-';
    }
    assert ToLower("---") == "---";
  }

  /** A line `key: value`, with white space around key and value and quotes around the value, has
      that key and that value. */
  lemma FieldParts(a: string, key: string, b: string, c: string, q: string, value: string, r: string, d: string)
    requires Blank(a) && Blank(b) && Blank(c) && Blank(d)
    requires key != "" && key[0] != '#' && ':' !in key && Clean(key, IsSpace)
    requires (forall x :: x in q || x in r ==> x == '\"' || x == '\'') && Clean(value, IsQuote)
    requires Clean(q + value + r, IsSpace)
    ensures Field(a + key + b + ":" + c + q + value + r + d) == Some((key, value))
  {
    hide IsSpace, Trim, Cut;
    BlankIsSpace(a);
    BlankIsSpace(b);
    BlankIsSpace(c);
    BlankIsSpace(d);
    Spaces();
    var v := q + value + r;
    var line := a + key + b + ":" + c + q + value + r + d;
    TrimAround(q, value, r, IsQuote);
    TrimAround([], key, b, IsSpace);
    assert [] + key + b == key + b;
    if v == "" {
      var core := key + b + ":";
      assert line == a + core + (c + d);
      TrimAround(a, core, c + d, IsSpace);
      CutAt(key + b, ':', []);
      assert core == key + b + [':'] + [];
      TrimClean([], IsSpace);
    } else {
      var core := key + b + ":" + c + v;
      assert line == a + core + d;
      TrimAround(a, core, d, IsSpace);
      assert ':' !in key + b;
      CutAt(key + b, ':', c + v);
      assert core == key + b + [':'] + (c + v);
      assert c + v + [] == c + v;
      TrimAround(c, v, [], IsSpace);
    }
  }

  /** A line whose first character that is not white space is a hash, and one without a colon,
      says nothing. */
  lemma SaysNothing(rb: Runbook, a: string, rest: string)
    requires Blank(a) && (rest == "" || rest[0] == '#' || ':' !in a + rest)
    ensures WithLine(rb, a + rest) == rb
  {
    hide IsSpace, Trim, Cut, ParseRiskLevel;
    var l, m, r := TrimParts(a + rest);
    BlankIsSpace(a);
    Spaces();
    if rest != "" && rest[0] == '#' {
      HashFirst(a, rest);
    } else {
      assert forall c :: c in m ==> c in a + rest;
      CutNowhere(m, ':');
    }
  }

  lemma HashFirst(a: string, rest: string)
    requires (forall c :: c in a ==> IsSpace(c)) && rest != "" && rest[0] == '#' && !IsSpace('#')
    ensures var m := TrimSpace(a + rest); m != [] && m[0] == '#'
  {
    hide IsSpace;
    TrimLeftHead(a, rest, IsSpace);
    KeepsFirst(rest);
  }

  lemma {:induction false} KeepsFirst(s: string)
    requires s != [] && !IsSpace(s[0])
    ensures var m := TrimRight(s, IsSpace); m != [] && m[0] == s[0]
  {
    hide IsSpace;
    if |s| > 1 && IsSpace(s[|s| - 1]) {
      KeepsFirst(s[..|s| - 1]);
    }
  }

  /** The one field a line sets, by its key. */
  lemma KeySets(rb: Runbook, line: string, k: string, v: string)
    requires Field(line) == Some((k, v))
    ensures var u := WithLine(rb, line);
            && u.id == (if k == "id" then v else rb.id)
            && u.title == (if k == "title" then v else rb.title)
            && u.body == rb.body
            && (!("match." <= k) ==> u.matchLabels == rb.matchLabels)
            && (k != "risk" && k != "risk_level" ==> u.risk == rb.risk)
    ensures forall key :: k == "match." + key ==>
              WithLine(rb, line).matchLabels == rb.matchLabels[key := v]
  {
    hide Field, ParseRiskLevel;
    forall key | k == "match." + key ensures WithLine(rb, line).matchLabels == rb.matchLabels[key := v] {
      assert ("match." + key)[6..] == key && "match." <= k && k[0] == 'm';
    }
  }

  /** A runbook without a title is titled by its id, and one without an id is named after its file. */
  lemma Defaults(lines: seq<string>, stem: string)
    ensures var front, rb := WithFront(EMPTY, Front(lines)), Loaded(lines, stem);
            && rb.id == (if front.id == "" then stem else front.id)
            && rb.title == (if front.title == "" then rb.id else front.title)
            && rb.matchLabels == front.matchLabels && rb.risk == front.risk
            && rb.body == Unlines(Body(lines))
  {
    hide WithFront, Front, Body, Unlines;
  }

  // ----- Round trip -----

  function MatchLine(rb: Runbook, k: string): string
    requires k in rb.matchLabels
  {
    "match." + k + ": " + rb.matchLabels[k]
  }

  function MatchLines(rb: Runbook, keys: seq<string>): seq<string>
    requires forall k :: k in keys ==> k in rb.matchLabels
  {
    seq(|keys|, i requires 0 <= i < |keys| => MatchLine(rb, keys[i]))
  }

  function Header(rb: Runbook, keys: seq<string>): seq<string>
    requires forall k :: k in keys ==> k in rb.matchLabels
  {
    ["id: " + rb.id, "title: " + rb.title,
     "risk: " + if rb.risk == AutoRemediate then "auto_remediate" else "requires_approval"] + MatchLines(rb, keys)
  }

  /** The documented file format, with the match lines in the order of `keys`. */
  function Document(rb: Runbook, keys: seq<string>, body: seq<string>): seq<string>
    requires forall k :: k in keys ==> k in rb.matchLabels
  {
    ["---"] + Header(rb, keys) + ["---"] + body
  }

  predicate PlainValue(v: string) {
    Clean(v, IsSpace) && Clean(v, IsQuote) && '\n' !in v
  }

  predicate GoodKey(rb: Runbook, k: string)
    requires k in rb.matchLabels
  {
    && PlainValue(rb.matchLabels[k])
    && ':' !in k && '\n' !in k && (k == "" || !IsSpace(k[|k| - 1]))
  }

  predicate GoodHeader(rb: Runbook) {
    && rb.id != "" && rb.title != "" && PlainValue(rb.id) && PlainValue(rb.title)
    && rb.risk in {AutoRemediate, RequiresApproval}
  }

  predicate IsLine(l: string) {
    '\n' !in l && DropCR(l) == l && ByteLen(l) < MAX_TOKEN
  }

  /** A runbook that the documented format can express, with its match keys and body lines. */
  ghost predicate Writable(rb: Runbook, keys: seq<string>, body: seq<string>) {
    && GoodHeader(rb)
    && (forall k :: k in keys <==> k in rb.matchLabels)
    && (forall k :: k in keys ==> GoodKey(rb, k))
    && rb.body == Unlines(body)
    && (forall l :: l in body ==> IsLine(l))
    && (forall l :: l in Header(rb, keys) ==> ByteLen(l) < MAX_TOKEN)
  }

  /** The part of a `key: value` line after the colon, once the line is trimmed. */
  function After(v: string): string {
    if v == "" then "" else " " + v
  }

  lemma TrimField(k: string, v: string)
    requires k != "" && Clean(k, IsSpace) && Clean(v, IsSpace)
    ensures TrimSpace(k + ": " + v) == k + [':'] + After(v)
    ensures TrimSpace(k) == k && TrimSpace(After(v)) == v
  {
    hide IsSpace;
    var core, post := k + [':'] + After(v), if v == "" then " " else "";
    assert IsSpace(' ') && !IsSpace(':') by { Spaces(); }
    assert [] + core + post == k + ": " + v;
    TrimAround([], core, post, IsSpace);
    TrimClean(k, IsSpace);
    var pre := if v == "" then "" else " ";
    assert After(v) == pre + v + [];
    TrimAround(pre, v, [], IsSpace);
  }

  lemma Spaces()
    ensures IsSpace(' ') && !IsSpace(':') && !IsSpace('-') && !IsSpace('#')
  {
  }

  /** A `key: value` line is read back as that key and value. */
  lemma FieldOf(k: string, v: string)
    requires k != "" && Clean(k, IsSpace) && ':' !in k && k[0] != '#' && k[0] != '-'
    requires Clean(v, IsSpace) && Clean(v, IsQuote)
    ensures Field(k + ": " + v) == Some((k, v))
    ensures !IsRule(k + ": " + v)
  {
    hide TrimSpace, Trim, Cut;
    TrimField(k, v);
    CutAt(k, ':', After(v));
    TrimClean(v, IsQuote);
    assert (k + [':'] + After(v))[0] == k[0];
  }

  lemma MatchLineReadsBack(rb: Runbook, before: Runbook, k: string)
    requires k in rb.matchLabels && GoodKey(rb, k)
    ensures WithLine(before, MatchLine(rb, k)) == before.(matchLabels := before.matchLabels[k := rb.matchLabels[k]])
    ensures !IsRule(MatchLine(rb, k)) && '\n' !in MatchLine(rb, k) && DropCR(MatchLine(rb, k)) == MatchLine(rb, k)
  {
    hide Field, IsRule, TrimSpace, ParseRiskLevel;
    var v := rb.matchLabels[k];
    FieldOf("match." + k, v);
    assert MatchLine(rb, k) == "match." + k + ": " + v;
    assert ("match." + k)[6..] == k;
    EndOfLine("match." + k + ": ", v);
  }

  lemma EndOfLine(start: string, v: string)
    requires start != "" && start[|start| - 1] == ' ' && '\n' !in start && PlainValue(v)
    ensures '\n' !in start + v && DropCR(start + v) == start + v
  {
    if v != "" {
      assert (start + v)[|start + v| - 1] == v[|v| - 1];
    }
  }

  lemma WithFrontLast(rb: Runbook, ls: seq<string>)
    requires ls != []
    ensures WithFront(rb, ls) == WithLine(WithFront(rb, ls[..|ls| - 1]), ls[|ls| - 1])
  {
  }

  lemma OneMoreKey(m: map<string, string>, keys: seq<string>)
    requires keys != [] && forall k :: k in keys ==> k in m
    ensures var n := |keys| - 1;
            (map k | k in keys :: m[k]) == (map k | k in keys[..n] :: m[k])[keys[n] := m[keys[n]]]
  {
    var n := |keys| - 1;
    assert keys == keys[..n] + [keys[n]];
  }

  lemma {:induction false} FrontMatches(rb: Runbook, start: Runbook, keys: seq<string>)
    requires forall k :: k in keys ==> k in rb.matchLabels && GoodKey(rb, k)
    ensures var m := map k | k in keys :: rb.matchLabels[k];
            WithFront(start, MatchLines(rb, keys)) == start.(matchLabels := start.matchLabels + m)
    decreases |keys|, 1
  {
    if keys == [] {
      assert start.matchLabels + map[] == start.matchLabels;
    } else {
      NextMatch(rb, start, keys);
    }
  }

  lemma NextMatch(rb: Runbook, start: Runbook, keys: seq<string>)
    requires keys != [] && forall k :: k in keys ==> k in rb.matchLabels && GoodKey(rb, k)
    ensures var m := map k | k in keys :: rb.matchLabels[k];
            WithFront(start, MatchLines(rb, keys)) == start.(matchLabels := start.matchLabels + m)
    decreases |keys|, 0
  {
    hide WithLine, MatchLine, WithFront, GoodKey;
    var ls, n := MatchLines(rb, keys), |keys| - 1;
    assert ls[..n] == MatchLines(rb, keys[..n]);
    FrontMatches(rb, start, keys[..n]);
    WithFrontLast(start, ls);
    MatchLineReadsBack(rb, WithFront(start, ls[..n]), keys[n]);
    OneMoreKey(rb.matchLabels, keys);
    var m := map k | k in keys[..n] :: rb.matchLabels[k];
    var k := keys[n];
    assert (start.matchLabels + m)[k := rb.matchLabels[k]] == start.matchLabels + m[k := rb.matchLabels[k]];
  }

  lemma {:induction false} WithFrontConcat(rb: Runbook, a: seq<string>, b: seq<string>)
    ensures WithFront(rb, a + b) == WithFront(WithFront(rb, a), b)
  {
    hide WithLine;
    if b == [] {
      assert a + b == a;
    } else {
      var n := |b| - 1;
      assert (a + b)[..|a + b| - 1] == a + b[..n];
      WithFrontConcat(rb, a, b[..n]);
    }
  }

  lemma RiskReadsBack(r: RiskLevel)
    requires r in {AutoRemediate, RequiresApproval}
    ensures ParseRiskLevel(RiskText(r)) == Some(r)
    ensures PlainValue(RiskText(r))
  {
    TrimClean(RiskText(r), IsSpace);
    assert ToLower(RiskText(r)) == RiskText(r);
  }

  lemma OwnText(r: RiskLevel)
    requires r in {AutoRemediate, RequiresApproval}
    ensures RiskText(r) == if r == AutoRemediate then "auto_remediate" else "requires_approval"
  {
  }

  lemma IdReadsBack(before: Runbook, v: string)
    requires PlainValue(v)
    ensures var l := "id: " + v;
            WithLine(before, l) == before.(id := v) && !IsRule(l) && '\n' !in l && DropCR(l) == l
  {
    hide Field, IsRule, ParseRiskLevel;
    FieldOf("id", v);
    assert "id" + ": " + v == "id: " + v;
    EndOfLine("id: ", v);
  }

  lemma TitleReadsBack(before: Runbook, v: string)
    requires PlainValue(v)
    ensures var l := "title: " + v;
            WithLine(before, l) == before.(title := v) && !IsRule(l) && '\n' !in l && DropCR(l) == l
  {
    hide Field, IsRule, ParseRiskLevel;
    FieldOf("title", v);
    assert "title" + ": " + v == "title: " + v;
    EndOfLine("title: ", v);
  }

  lemma RiskLineReadsBack(before: Runbook, r: RiskLevel)
    requires r in {AutoRemediate, RequiresApproval}
    ensures var l := "risk: " + RiskText(r);
            WithLine(before, l) == before.(risk := r) && !IsRule(l) && '\n' !in l && DropCR(l) == l
  {
    hide Field, IsRule, ParseRiskLevel, RiskText;
    RiskReadsBack(r);
    FieldOf("risk", RiskText(r));
    assert "risk" + ": " + RiskText(r) == "risk: " + RiskText(r);
    EndOfLine("risk: ", RiskText(r));
  }

  lemma {:induction false} ThreeLines(rb: Runbook, a: string, b: string, c: string)
    ensures WithFront(rb, [a, b, c]) == WithLine(WithLine(WithLine(rb, a), b), c)
  {
    hide WithLine;
    assert [a, b, c][..2] == [a, b] && [a, b][..1] == [a] && [a][..0] == [];
    assert WithFront(rb, [a]) == WithLine(rb, a);
    assert WithFront(rb, [a, b]) == WithLine(WithFront(rb, [a]), b);
  }

  lemma HeaderReadsBack(rb: Runbook, keys: seq<string>)
    requires GoodHeader(rb)
    requires forall k :: k in keys ==> k in rb.matchLabels && GoodKey(rb, k)
    requires forall k :: k in rb.matchLabels ==> k in keys
    ensures WithFront(EMPTY, Header(rb, keys)) == rb.(body := "")
  {
    hide WithLine, PlainValue, GoodKey, RiskText, IsRule, DropCR;
    var a, b, c := "id: " + rb.id, "title: " + rb.title, "risk: " + RiskText(rb.risk);
    OwnText(rb.risk);
    ThreeLines(EMPTY, a, b, c);
    IdReadsBack(EMPTY, rb.id);
    TitleReadsBack(WithLine(EMPTY, a), rb.title);
    RiskLineReadsBack(WithLine(WithLine(EMPTY, a), b), rb.risk);
    WithFrontConcat(EMPTY, [a, b, c], MatchLines(rb, keys));
    FrontMatches(rb, WithFront(EMPTY, [a, b, c]), keys);
    assert map[] + (map k | k in keys :: rb.matchLabels[k]) == rb.matchLabels;
  }

  lemma HeaderIsLines(rb: Runbook, keys: seq<string>, l: string)
    requires GoodHeader(rb)
    requires forall k :: k in keys ==> k in rb.matchLabels && GoodKey(rb, k)
    requires l in Header(rb, keys)
    ensures !IsRule(l) && '\n' !in l && DropCR(l) == l
  {
    hide WithLine, PlainValue, GoodKey, RiskText, IsRule, DropCR, MatchLine;
    IdReadsBack(EMPTY, rb.id);
    TitleReadsBack(EMPTY, rb.title);
    OwnText(rb.risk);
    RiskLineReadsBack(EMPTY, rb.risk);
    forall k | k in keys
      ensures !IsRule(MatchLine(rb, k)) && '\n' !in MatchLine(rb, k) && DropCR(MatchLine(rb, k)) == MatchLine(rb, k)
    {
      MatchLineReadsBack(rb, EMPTY, k);
    }
  }

  lemma {:induction false} LinesOfUnlines(lines: seq<string>)
    requires forall l :: l in lines ==> '\n' !in l
    ensures RawLines(Unlines(lines)) == lines
  {
    if lines != [] {
      UnlinesFirst(lines);
      CutAt(lines[0], '\n', Unlines(lines[1..]));
      LinesOfUnlines(lines[1..]);
    }
  }

  lemma {:induction false} UnlinesFirst(lines: seq<string>)
    requires lines != []
    ensures Unlines(lines) == lines[0] + ['\n'] + Unlines(lines[1..])
  {
    hide Unlines;
    var n := |lines| - 1;
    UnlinesSnoc(lines[..n], lines[n]);
    assert lines == lines[..n] + [lines[n]];
    if n == 0 {
      UnlinesNone();
      assert lines[..0] == [] && lines[1..] == [];
      assert [] + lines[0] + "\n" == lines[0] + ['\n'] + [];
    } else {
      UnlinesFirst(lines[..n]);
      UnlinesSnoc(lines[..n][1..], lines[n]);
      assert lines[1..] == lines[..n][1..] + [lines[n]];
    }
  }

  lemma UnlinesNone()
    ensures Unlines([]) == ""
  {
  }

  /** Both line endings read alike, and a line that does not end in a carriage return is read as it is. */
  lemma CarriageReturns(lines: seq<string>)
    requires forall l :: l in lines ==> '\n' !in l
    ensures Lines(Unlines(seq(|lines|, i requires 0 <= i < |lines| => lines[i] + "\r"))) == lines
    ensures (forall l :: l in lines ==> l == "" || l[|l| - 1] != '\r') ==> Lines(Unlines(lines)) == lines
  {
    hide Unlines, RawLines;
    LinesOfUnlines(seq(|lines|, i requires 0 <= i < |lines| => lines[i] + "\r"));
    LinesOfUnlines(lines);
  }

  /** A last line needs no line ending. */
  lemma {:induction false} LastLine(lines: seq<string>, last: string)
    requires (forall l :: l in lines ==> '\n' !in l) && last != "" && '\n' !in last
    ensures RawLines(Unlines(lines) + last) == lines + [last]
    decreases |lines|
  {
    hide Unlines;
    if lines == [] {
      UnlinesNone();
      CutNowhere(last, '\n');
      assert Unlines(lines) + last == last;
    } else {
      UnlinesFirst(lines);
      assert Unlines(lines) + last == lines[0] + ['\n'] + (Unlines(lines[1..]) + last);
      CutAt(lines[0], '\n', Unlines(lines[1..]) + last);
      LastLine(lines[1..], last);
      TextAfter(lines[0], Unlines(lines[1..]) + last);
    }
  }

  lemma TextAfter(first: string, rest: string)
    requires '\n' !in first && rest != ""
    ensures RawLines(first + ['\n'] + rest) == [first] + RawLines(rest)
  {
    CutAt(first, '\n', rest);
  }

  lemma DocumentParts(doc: seq<string>, header: seq<string>, body: seq<string>)
    requires doc == ["---"] + header + ["---"] + body
    requires forall l :: l in header ==> !IsRule(l)
    ensures Front(doc) == header && Body(doc) == body
  {
    var c := 1 + |header|;
    assert IsRule("---") by {
      TrimClean("---", IsSpace);
    }
    hide IsRule;
    assert doc[0] == "---" && doc[c] == "---" && IsRule(doc[0]) && IsRule(doc[c]);
    assert forall i :: 1 <= i < c ==> doc[i] == header[i - 1];
    assert RuleFrom(doc, 1) == c;
    assert doc[1..c] == header && doc[c + 1..] == body;
  }

  /** Reading back a written runbook gives the runbook that was written. */
  lemma RoundTrip(rb: Runbook, keys: seq<string>, body: seq<string>, stem: string)
    requires Writable(rb, keys, body)
    ensures var text := Unlines(Document(rb, keys, body));
            && (forall raw :: raw in RawLines(text) ==> ByteLen(raw) < MAX_TOKEN)
            && Loaded(Lines(text), stem) == rb
  {
    hide IsRule, DropCR, PlainValue, GoodKey, Header, Front, Body, RawLines, Unlines, WithFront;
    var doc, header := Document(rb, keys, body), Header(rb, keys);
    HeaderReadsBack(rb, keys);
    forall l | l in header ensures !IsRule(l) && IsLine(l) {
      HeaderIsLines(rb, keys, l);
    }
    RuleIsLine();
    assert forall l :: l in doc ==> l == "---" || l in header || l in body;
    LinesOfUnlines(doc);
    forall i | 0 <= i < |doc| ensures DropCR(doc[i]) == doc[i] {
      assert IsLine(doc[i]);
    }
    assert Lines(Unlines(doc)) == doc;
    DocumentParts(doc, header, body);
  }

  lemma RuleIsLine()
    ensures IsLine("---")
  {
    assert "---"[..2] == "--" && "--"[..1] == "-" && "-"[..0] == "";
  }
}
