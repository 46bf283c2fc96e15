/** parseCacheControl (internal/proxy/cache.go): a Cache-Control value as a map of directives. */
module CacheControl {
  import opened Options
  import opened Text

  function IndexOf(s: string, c: char): (i: nat)
    ensures i <= |s| && c !in s[..i] && (i < |s| ==> s[i] == c)
  {
    if s == "" || s[0] == c then 0
    else
      var i := IndexOf(s[1..], c);
      assert s[..i + 1] == [s[0]] + s[1..][..i];
      i + 1
  }

  /** strings.Split on one character. */
  function Split(s: string, c: char): seq<string>
    decreases |s|
  {
    var i := IndexOf(s, c);
    if i == |s| then [s] else [s[..i]] + Split(s[i + 1..], c)
  }

  function Join(parts: seq<string>, c: char): string {
    if parts == [] then "" else if |parts| == 1 then parts[0] else parts[0] + [c] + Join(parts[1..], c)
  }

  /** The cutset an argument is trimmed by. */
  predicate Padding(c: char) {
    c == '"' || c == ' '
  }

  /** One segment between commas: nothing, or a lower-case name and an unquoted argument. */
  function Segment(text: string): Option<(string, string)> {
    var s := TrimSpace(text);
    if s == "" then None
    else
      var i := IndexOf(s, '=');
      Some((Lower(TrimSpace(s[..i])), if i == |s| then "" else Trim(s[i + 1..], Padding)))
  }

  /** The directives of the segments; a later one replaces an earlier one of the same name. */
  function Collect(segments: seq<string>): map<string, string> {
    if segments == [] then map[] else Adding(Collect(segments[..|segments| - 1]), Segment(segments[|segments| - 1]))
  }

  function Adding(earlier: map<string, string>, d: Option<(string, string)>): map<string, string> {
    if d.None? then earlier else earlier[d.value.0 := d.value.1]
  }

  function Parse(header: string): map<string, string> {
    Collect(Split(header, ','))
  }

  method ParseCacheControl(headerValue: string) returns (directives: map<string, string>)
    ensures directives == Parse(headerValue)
  {
    directives := map[];
    if headerValue == "" {
      assert Split("", ',') == [""] && [""][..0] == [];
      return;
    }
    var segments := Split(headerValue, ',');
    for i := 0 to |segments|
      invariant directives == Collect(segments[..i])
    {
      assert segments[..i + 1][..i] == segments[..i];
      directives := AddSegment(directives, segments[i]);
    }
    assert segments[..|segments|] == segments;
  }

  /** The loop's body, lines 296-309. */
  method AddSegment(directives: map<string, string>, text: string) returns (added: map<string, string>)
    ensures added == Adding(directives, Segment(text))
  {
    var segment := TrimSpace(text);
    if segment == "" {
      return directives;
    }
    var eq := IndexOf(segment, '=');
    var key := Lower(TrimSpace(segment[..eq]));
    if eq < |segment| {
      added := directives[key := Trim(segment[eq + 1..], Padding)];
    } else {
      added := directives[key := ""];
    }
  }

  // ----- Writing directives and reading them back -----

  lemma {:induction false} IndexAfter(a: string, c: char, rest: string)
    requires c !in a
    ensures IndexOf(a + [c] + rest, c) == |a|
    ensures IndexOf(a, c) == |a|
  {
    if a != "" {
      IndexAfter(a[1..], c, rest);
      assert (a + [c] + rest)[1..] == a[1..] + [c] + rest;
    }
  }

  lemma {:induction false} SplitJoin(parts: seq<string>, c: char)
    requires parts != [] && forall p :: p in parts ==> c !in p
    ensures Split(Join(parts, c), c) == parts
  {
    if |parts| == 1 {
      IndexAfter(parts[0], c, "");
    } else {
      var rest := Join(parts[1..], c);
      var s := Join(parts, c);
      IndexAfter(parts[0], c, rest);
      SplitJoin(parts[1..], c);
      assert s[..|parts[0]|] == parts[0] && s[|parts[0]| + 1..] == rest;
    }
  }

  /** What stands between two commas: nothing but white space, or a directive.  The name may be in
      any case and have white space around it; an argument may have any mix of quotes and spaces
      on either side of it, and if it ends in other white space, a quote must protect that. */
  datatype Piece =
    | Nothing(blank: string)
    | Flag(before: string, name: string, after: string)
    | Setting(before: string, name: string, afterName: string, open: string, argument: string, close: string,
              after: string)

  /** The parts of a piece are what their names say.  The name may even be empty, if there is an
      argument. */
  predicate WellSpelled(p: Piece) {
    match p
    case Nothing(blank) => Only(blank, IsSpace)
    case Flag(before, name, after) =>
      Only(before, IsSpace) && Only(after, IsSpace) && name != "" && Bare(name, IsSpace) && '=' !in name
    case Setting(before, name, afterName, open, argument, close, after) =>
      && Only(before, IsSpace) && Only(afterName, IsSpace) && Only(after, IsSpace)
      && Bare(name, IsSpace) && '=' !in name
      && Only(open, Padding) && Only(close, Padding) && Bare(argument, Padding)
      && (argument != "" && IsSpace(argument[|argument| - 1]) ==> '"' in close)
  }

  /** A comma ends a piece, even between quotes. */
  predicate WithoutComma(p: Piece) {
    (p.Flag? || p.Setting? ==> ',' !in p.name) && (p.Setting? ==> ',' !in p.argument)
  }

  function Render(p: Piece): string {
    match p
    case Nothing(blank) => blank
    case Flag(before, name, after) => before + name + after
    case Setting(before, name, afterName, open, argument, close, after) =>
      before + (name + afterName + "=" + (open + argument + close)) + after
  }

  function RenderAll(ps: seq<Piece>): (texts: seq<string>)
    ensures |texts| == |ps| && forall i :: 0 <= i < |ps| ==> texts[i] == Render(ps[i])
  {
    seq(|ps|, i requires 0 <= i < |ps| => Render(ps[i]))
  }

  /** The name in lower case, and the argument as it stands between its quotes and spaces. */
  function MeaningOf(p: Piece): Option<(string, string)> {
    match p
    case Nothing(_) => None
    case Flag(_, name, _) => Some((Lower(name), ""))
    case Setting(_, name, _, _, argument, _, _) => Some((Lower(name), argument))
  }

  /** The last directive of each name. */
  function Meaning(ps: seq<Piece>): map<string, string> {
    if ps == [] then map[] else Adding(Meaning(ps[..|ps| - 1]), MeaningOf(ps[|ps| - 1]))
  }

  lemma SegmentOfFlag(p: Piece)
    requires p.Flag? && WellSpelled(p)
    ensures Segment(Render(p)) == MeaningOf(p)
  {
    TrimAround(p.before, p.name, p.after, IsSpace);
    IndexAfter(p.name, '=', "");
    assert p.name[..|p.name|] == p.name;
    assert "" + p.name + "" == p.name;
    TrimAround("", p.name, "", IsSpace);
  }

  /** A setting without the white space before it and after its name, if it has no name. */
  function Lead(p: Piece): string
    requires p.Setting?
  {
    if p.name == "" then "" else p.name + p.afterName
  }

  lemma TrimLead(p: Piece)
    requires p.Setting? && WellSpelled(p)
    ensures TrimSpace(Lead(p)) == p.name && '=' !in Lead(p)
  {
    var rear := if p.name == "" then "" else p.afterName;
    assert Lead(p) == "" + p.name + rear;
    TrimAround("", p.name, rear, IsSpace);
  }

  lemma CutAtEquals(front: string, value: string)
    requires '=' !in front
    ensures var s := front + "=" + value;
            IndexOf(s, '=') == |front| < |s| && s[..|front|] == front && s[|front| + 1..] == value
  {
    IndexAfter(front, '=', value);
  }

  lemma TrimSettingLeft(p: Piece)
    requires p.Setting? && WellSpelled(p)
    ensures TrimLeft(Render(p), IsSpace) == Lead(p) + "=" + (p.open + p.argument + p.close) + p.after
  {
    var rest := "=" + (p.open + p.argument + p.close) + p.after;
    if p.name == "" {
      assert Render(p) == p.before + p.afterName + rest;
      TrimLeftPast(p.before + p.afterName, rest, IsSpace);
    } else {
      assert Render(p) == p.before + (Lead(p) + rest);
      TrimLeftPast(p.before, Lead(p) + rest, IsSpace);
    }
  }

  /** TrimSpace may cut into what closes the argument, but leaves the argument alone. */
  lemma TrimSetting(p: Piece) returns (value: string)
    requires p.Setting? && WellSpelled(p)
    ensures TrimSpace(Render(p)) == Lead(p) + "=" + value
    ensures Trim(value, Padding) == p.argument
  {
    TrimSettingLeft(p);
    TrimRightPast(Lead(p) + "=" + (p.open + p.argument + p.close), p.after, IsSpace);
    value := TrimValue(Lead(p) + "=", p);
  }

  lemma TrimValue(front: string, p: Piece) returns (value: string)
    requires p.Setting? && WellSpelled(p) && front != "" && !IsSpace(front[|front| - 1])
    ensures TrimRight(front + (p.open + p.argument + p.close), IsSpace) == front + value
    ensures Trim(value, Padding) == p.argument
  {
    if p.argument == "" {
      value := TrimRightInto(front, p.open + p.close, IsSpace);
      assert p.open + p.argument + p.close == p.open + p.close;
      assert value + "" + "" == value;
      TrimAround(value, "", "", Padding);
    } else {
      var i := if IsSpace(p.argument[|p.argument| - 1]) then 1 + IndexOf(p.close, '"') else 0;
      assert p.close[..i] + p.close[i..] == p.close;
      value := TrimClosing(front, p.open, p.argument, p.close[..i], p.close[i..]);
    }
  }

  lemma Assoc(a: string, b: string, c: string)
    ensures a + b + c == a + (b + c)
  {
  }

  lemma Regroup(open: string, argument: string, shut: string, rest: string)
    ensures open + argument + (shut + rest) == open + (argument + shut) + rest
  {
    Assoc(open, argument, shut + rest);
    Assoc(argument, shut, rest);
    Assoc(open, argument + shut, rest);
  }

  /** TrimSpace keeps the argument and the start of what closes it, if that ends in no space. */
  lemma TrimClosing(front: string, open: string, argument: string, shut: string, rest: string) returns (value: string)
    requires Only(open, Padding) && Only(shut, Padding) && Only(rest, Padding) && Bare(argument, Padding)
    requires argument != "" && !IsSpace((argument + shut)[|argument| + |shut| - 1])
    ensures TrimRight(front + (open + argument + (shut + rest)), IsSpace) == front + value
    ensures Trim(value, Padding) == argument
  {
    var x := open + (argument + shut);
    var kept := TrimRightInto(front + x, rest, IsSpace);
    Regroup(open, argument, shut, rest);
    Assoc(front, x, rest);
    value := x + kept;
    Assoc(front, x, kept);
    Regroup(open, argument, shut, kept);
    TrimAround(open, argument, shut + kept, Padding);
  }

  lemma SegmentOfSetting(p: Piece)
    requires p.Setting? && WellSpelled(p)
    ensures Segment(Render(p)) == MeaningOf(p)
  {
    var value := TrimSetting(p);
    TrimLead(p);
    CutAtEquals(Lead(p), value);
  }

  lemma SegmentOfRender(p: Piece)
    requires WellSpelled(p)
    ensures Segment(Render(p)) == MeaningOf(p)
  {
    match p
    case Nothing(blank) =>
      assert blank + "" + "" == blank;
      TrimAround(blank, "", "", IsSpace);
    case Flag(_, _, _) => SegmentOfFlag(p);
    case Setting(_, _, _, _, _, _, _) => SegmentOfSetting(p);
  }

  lemma {:induction false} CollectRendered(ps: seq<Piece>)
    requires forall i :: 0 <= i < |ps| ==> WellSpelled(ps[i])
    ensures Collect(RenderAll(ps)) == Meaning(ps)
  {
    if ps != [] {
      var n := |ps| - 1;
      CollectRendered(ps[..n]);
      assert RenderAll(ps)[..n] == RenderAll(ps[..n]);
      SegmentOfRender(ps[n]);
    }
  }

  lemma NoCommaRendered(p: Piece)
    requires WellSpelled(p) && WithoutComma(p)
    ensures ',' !in Render(p)
  {
  }

  /** However a list of directives is spelled, parsing it gives back the last argument of each
      name. */
  lemma ParseOfRendered(ps: seq<Piece>)
    requires forall i :: 0 <= i < |ps| ==> WellSpelled(ps[i]) && WithoutComma(ps[i])
    ensures Parse(Join(RenderAll(ps), ',')) == Meaning(ps)
  {
    if ps == [] {
      assert Split("", ',') == [""] && [""][..0] == [];
      return;
    }
    forall t | t in RenderAll(ps) ensures ',' !in t {
      var i :| 0 <= i < |ps| && t == Render(ps[i]);
      NoCommaRendered(ps[i]);
    }
    SplitJoin(RenderAll(ps), ',');
    CollectRendered(ps);
  }

  // ----- What a header says, without the parser -----

  /** The header is the pieces, one after the other between commas. */
  predicate Spelled(header: string, ps: seq<Piece>) {
    header == Join(RenderAll(ps), ',') && forall i :: 0 <= i < |ps| ==> WellSpelled(ps[i]) && WithoutComma(ps[i])
  }

  /** The piece is a directive of that name, in any case. */
  predicate Names(p: Piece, name: string) {
    (p.Flag? || p.Setting?) && EqualFold(p.name, name)
  }

  predicate Mentions(ps: seq<Piece>, name: string) {
    exists i :: 0 <= i < |ps| && Names(ps[i], name)
  }

  /** The argument of the last directive of that name, "" if it has none. */
  function LastSaid(ps: seq<Piece>, name: string): Option<string> {
    if ps == [] then None
    else
      var p := ps[|ps| - 1];
      if Names(p, name) then Some(if p.Setting? then p.argument else "") else LastSaid(ps[..|ps| - 1], name)
  }

  lemma {:induction false} MentionedIsSaid(ps: seq<Piece>, name: string)
    ensures LastSaid(ps, name).Some? <==> Mentions(ps, name)
  {
    if ps != [] {
      var n := |ps| - 1;
      MentionedIsSaid(ps[..n], name);
      assert Names(ps[n], name) ==> Mentions(ps, name);
      if Mentions(ps[..n], name) {
        var i :| 0 <= i < n && Names(ps[..n][i], name);
        assert Names(ps[i], name);
      }
      if Mentions(ps, name) && !Names(ps[n], name) {
        var i :| 0 <= i < |ps| && Names(ps[i], name);
        assert Names(ps[..n][i], name);
      }
    }
  }

  lemma {:induction false} MeaningIsSaid(ps: seq<Piece>, name: string)
    requires Small(name)
    ensures LastSaid(ps, name) == if name in Meaning(ps) then Some(Meaning(ps)[name]) else None
  {
    if ps != [] {
      var p := ps[|ps| - 1];
      MeaningIsSaid(ps[..|ps| - 1], name);
      if !p.Nothing? {
        LowerIsSmall(p.name, name);
      }
    }
  }

  /** A header in words: the parsed map knows a name just if a piece mentions it, and has the
      argument of the last that does. */
  lemma ParseInWords(header: string, ps: seq<Piece>, name: string)
    requires Spelled(header, ps) && Small(name)
    ensures name in Parse(header) <==> Mentions(ps, name)
    ensures LastSaid(ps, name) == if name in Parse(header) then Some(Parse(header)[name]) else None
  {
    ParseOfRendered(ps);
    MeaningIsSaid(ps, name);
    MentionedIsSaid(ps, name);
  }

  /** Quotes and spaces and nothing else. */
  lemma PaddingIs(c: char)
    ensures Padding(c) <==> c in {'"', ' '}
  {
  }

  // ----- Commas between quotes -----

  lemma {:induction false} SplitParts(s: string, c: char)
    ensures forall p :: p in Split(s, c) ==> c !in p
    decreases |s|
  {
    var i := IndexOf(s, c);
    if i < |s| {
      SplitParts(s[i + 1..], c);
    }
  }

  lemma {:induction false} CollectedArguments(segments: seq<string>, c: char)
    requires forall p :: p in segments ==> c !in p
    ensures forall k :: k in Collect(segments) ==> c !in Collect(segments)[k]
  {
    if segments != [] {
      var n := |segments| - 1;
      CollectedArguments(segments[..n], c);
      var s := TrimSpace(segments[n]);
      var i := IndexOf(s, '=');
      assert segments[n] in segments;
      TrimDrops(segments[n], IsSpace);
      if i < |s| {
        TrimDrops(s[i + 1..], Padding);
      }
    }
  }

  /** No header whatever parses to an argument with a comma in it: a directive, quoted or not,
      reads back if and only if its argument has none. */
  lemma ReadsBackIff(p: Piece)
    requires p.Setting? && WellSpelled(p) && ',' !in p.name
    ensures Parse(Render(p)) == map[Lower(p.name) := p.argument] <==> ',' !in p.argument
    ensures forall header, k :: k in Parse(header) ==> ',' !in Parse(header)[k]
  {
    forall header, k | k in Parse(header) ensures ',' !in Parse(header)[k] {
      SplitParts(header, ',');
      CollectedArguments(Split(header, ','), ',');
    }
    assert map[Lower(p.name) := p.argument][Lower(p.name)] == p.argument;
    if ',' !in p.argument {
      ParseOfRendered([p]);
      assert Join(RenderAll([p]), ',') == Render(p);
      assert [p][..0] == [];
    }
  }
}
