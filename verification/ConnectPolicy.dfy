/**
 * Letting the document fetch from the loopback: the rewritten Content-Security-Policy header, read back
 * as section 2.2.1 of Content Security Policy Level 3 reads it.
 */
module ConnectPolicy {
  import opened Base

  const LOOPBACK_SOURCE := "http://127.0.0.1:*"
  const CONNECT := "connect-src"
  const DEFAULT := "default-src"

  // ---- text ---------------------------------------------------------------------------------------

  /** Rust's white space, or the ASCII white space the standard splits at. */
  datatype Alphabet = Rust | Ascii

  predicate IsSpace(w: Alphabet, c: char) {
    if w.Ascii? then c == ' ' || c == '\t' || c == '\n' || c == '\U{000C}' || c == '\r'
    else IsWhiteSpace(c)
  }

  function Trim(w: Alphabet, s: string): string
    decreases |s|
  {
    if s == "" then ""
    else if IsSpace(w, s[0]) then Trim(w, s[1..])
    else if IsSpace(w, s[|s| - 1]) then Trim(w, s[..|s| - 1])
    else s
  }

  /** The length of the leading run without white space. */
  function WordEnd(w: Alphabet, s: string): (k: nat)
    ensures k <= |s| && (forall i :: 0 <= i < k ==> !IsSpace(w, s[i])) && (k < |s| ==> IsSpace(w, s[k]))
  {
    if s == "" || IsSpace(w, s[0]) then 0 else 1 + WordEnd(w, s[1..])
  }

  /** `split_whitespace`. */
  function Words(w: Alphabet, s: string): seq<string>
    decreases |s|
  {
    if s == "" then []
    else if IsSpace(w, s[0]) then Words(w, s[1..])
    else [s[..WordEnd(w, s)]] + Words(w, s[WordEnd(w, s)..])
  }

  /** `split(';')`. */
  function Split(s: string): (r: seq<string>)
    ensures r != []
  {
    if s == "" then [""]
    else
      var rest := Split(s[1..]);
      if s[0] == ';' then [""] + rest else [[s[0]] + rest[0]] + rest[1..]
  }

  /** The trimmed pieces that are not empty. */
  function Kept(w: Alphabet, pieces: seq<string>): seq<string> {
    if pieces == [] then []
    else
      var piece := Trim(w, pieces[0]);
      (if piece == "" then [] else [piece]) + Kept(w, pieces[1..])
  }

  function Join(parts: seq<string>): string {
    if parts == [] then "" else if |parts| == 1 then parts[0] else parts[0] + "; " + Join(parts[1..])
  }

  // ---- what a policy says ---------------------------------------------------------------------------

  datatype Directive = Directive(name: string, sources: seq<string>)

  function Meaning(w: Alphabet, directive: string): Directive {
    var words := Words(w, directive);
    if words == [] then Directive("", []) else Directive(Lower(words[0]), words[1..])
  }

  function Meanings(w: Alphabet, directives: seq<string>): seq<Directive> {
    seq(|directives|, i requires 0 <= i < |directives| => Meaning(w, directives[i]))
  }

  function Parse(w: Alphabet, csp: string): seq<Directive> {
    Meanings(w, Kept(w, Split(csp)))
  }

  /** The first directive of a name counts, later ones are ignored. */
  function Position(policy: seq<Directive>, name: string): (r: Option<nat>)
    ensures r.Some? ==> r.value < |policy| && policy[r.value].name == name
                        && forall i :: 0 <= i < r.value ==> policy[i].name != name
    ensures r.None? ==> forall i :: 0 <= i < |policy| ==> policy[i].name != name
  {
    if policy == [] then None
    else if policy[0].name == name then Some(0)
    else
      var rest := Position(policy[1..], name);
      if rest.None? then None else Some(rest.value + 1)
  }

  /** The sources of directive `name`, else of its fallback; without both, nothing is restricted. */
  function InForce(policy: seq<Directive>, name: string, fallback: string): Option<seq<string>> {
    var own, general := Position(policy, name), Position(policy, fallback);
    if own.Some? then Some(policy[own.value].sources)
    else if general.Some? then Some(policy[general.value].sources)
    else None
  }

  /** What connections are held to. */
  function Connections(policy: seq<Directive>): Option<seq<string>> {
    InForce(policy, CONNECT, DEFAULT)
  }

  // ---- reading what was joined ----------------------------------------------------------------------

  predicate NoSemicolon(s: string) {
    forall i :: 0 <= i < |s| ==> s[i] != ';'
  }

  /** A piece as it is kept: not empty, trimmed, within one directive. */
  predicate Clean(d: string) {
    d != "" && !IsSpace(Rust, d[0]) && !IsSpace(Rust, d[|d| - 1]) && NoSemicolon(d)
  }

  predicate AllClean(ds: seq<string>) {
    forall d :: d in ds ==> Clean(d)
  }

  predicate IsWord(s: string) {
    s != "" && NoSemicolon(s) && forall i :: 0 <= i < |s| ==> !IsSpace(Rust, s[i])
  }

  predicate AllWords(words: seq<string>) {
    forall x :: x in words ==> IsWord(x)
  }

  lemma SplitHasNoSemicolon(s: string)
    ensures forall piece :: piece in Split(s) ==> NoSemicolon(piece)
  {
    if s != "" {
      SplitHasNoSemicolon(s[1..]);
      var rest := Split(s[1..]);
      assert rest[0] in rest;
      assert forall piece :: piece in rest[1..] ==> piece in rest;
    }
  }

  lemma SplitAt(d: string, rest: string)
    requires NoSemicolon(d)
    ensures Split(d + ";" + rest) == [d] + Split(rest)
  {
    if d == "" {
      assert d + ";" + rest == ";" + rest && (";" + rest)[1..] == rest;
    } else {
      assert (d + ";" + rest)[1..] == d[1..] + ";" + rest && (d + ";" + rest)[0] == d[0];
      assert NoSemicolon(d[1..]) && d == [d[0]] + d[1..];
      SplitAt(d[1..], rest);
    }
  }

  lemma SplitWhole(d: string)
    requires NoSemicolon(d)
    ensures Split(d) == [d]
  {
    if d != "" {
      assert NoSemicolon(d[1..]) && d == [d[0]] + d[1..];
      SplitWhole(d[1..]);
    }
  }

  lemma TrimShape(s: string)
    ensures var t := Trim(Rust, s);
            (t == "" || (!IsSpace(Rust, t[0]) && !IsSpace(Rust, t[|t| - 1]))) && (NoSemicolon(s) ==> NoSemicolon(t))
    decreases |s|
  {
  }

  lemma KeptIsClean(pieces: seq<string>)
    requires forall piece :: piece in pieces ==> NoSemicolon(piece)
    ensures AllClean(Kept(Rust, pieces))
  {
    if pieces != [] {
      assert pieces[0] in pieces && forall piece :: piece in pieces[1..] ==> piece in pieces;
      TrimShape(pieces[0]);
      KeptIsClean(pieces[1..]);
    }
  }

  lemma SplitSpace(s: string)
    ensures Split(" " + s) == [" " + Split(s)[0]] + Split(s)[1..]
  {
    assert (" " + s)[1..] == s;
  }

  lemma TrimSpace(s: string)
    ensures Trim(Rust, " " + s) == Trim(Rust, s)
  {
    assert (" " + s)[1..] == s;
  }

  lemma TrimClean(d: string)
    requires Clean(d)
    ensures Trim(Rust, d) == d
  {
  }

  lemma KeptCons(piece: string, pieces: seq<string>)
    ensures Kept(Rust, [piece] + pieces) == (if Trim(Rust, piece) == "" then [] else [Trim(Rust, piece)]) + Kept(Rust, pieces)
  {
    assert ([piece] + pieces)[1..] == pieces;
  }

  /** A space before a header changes none of its pieces. */
  lemma KeptAfterSpace(s: string)
    ensures Kept(Rust, Split(" " + s)) == Kept(Rust, Split(s))
  {
    var pieces := Split(s);
    SplitSpace(s);
    TrimSpace(pieces[0]);
    KeptCons(" " + pieces[0], pieces[1..]);
    KeptCons(pieces[0], pieces[1..]);
    assert [pieces[0]] + pieces[1..] == pieces;
  }

  /** Clean pieces are read back from the joined header as they are. */
  lemma {:induction false} JoinIsRead(ds: seq<string>)
    requires ds != [] && AllClean(ds)
    ensures Kept(Rust, Split(Join(ds))) == ds
  {
    var d, rest := ds[0], ds[1..];
    assert d in ds && forall x :: x in rest ==> x in ds;
    assert ds == [d] + rest;
    TrimClean(d);
    if rest == [] {
      SplitWhole(d);
      KeptCons(d, []);
      assert [d] + [] == [d];
    } else {
      JoinIsRead(rest);
      assert Join(ds) == d + "; " + Join(rest);
      JoinedHead(d, Join(rest));
    }
  }

  lemma JoinedHead(d: string, rest: string)
    requires Clean(d)
    ensures Kept(Rust, Split(d + "; " + rest)) == [d] + Kept(Rust, Split(rest))
  {
    assert d + "; " + rest == d + ";" + (" " + rest);
    SplitAt(d, " " + rest);
    TrimClean(d);
    KeptCons(d, Split(" " + rest));
    KeptAfterSpace(rest);
  }

  /** Words on the two sides of a white space are found one after the other. */
  lemma {:induction false} WordsAppend(s: string, t: string)
    requires t != "" && IsSpace(Rust, t[0])
    ensures Words(Rust, s + t) == Words(Rust, s) + Words(Rust, t)
    decreases |s|
  {
    if s == "" {
      assert s + t == t;
    } else if IsSpace(Rust, s[0]) {
      assert (s + t)[1..] == s[1..] + t;
      WordsAppend(s[1..], t);
    } else {
      var k := WordEnd(Rust, s);
      WordsAppend(s[k..], t);
      FirstWord(s, "");
      assert s + "" == s && s[k..] + "" == s[k..];
      FirstWord(s, t);
      Regroup(s[..k], Words(Rust, s[k..]), Words(Rust, t));
    }
  }

  lemma Regroup(first: string, words: seq<string>, more: seq<string>)
    ensures [first] + (words + more) == [first] + words + more
  {
  }

  /** The first word of a text, whatever follows after a white space. */
  lemma FirstWord(s: string, t: string)
    requires s != "" && !IsSpace(Rust, s[0]) && (t == "" || IsSpace(Rust, t[0]))
    ensures var k := WordEnd(Rust, s);
            0 < k && Words(Rust, s + t) == [s[..k]] + Words(Rust, s[k..] + t)
  {
    var k := WordEnd(Rust, s);
    WordEndAppend(s, t);
    assert (s + t)[..k] == s[..k] && (s + t)[k..] == s[k..] + t && (s + t)[0] == s[0];
  }

  lemma WordEndAppend(s: string, t: string)
    requires t == "" || IsSpace(Rust, t[0])
    ensures WordEnd(Rust, s + t) == WordEnd(Rust, s)
  {
    if s == "" {
      assert s + t == t;
    } else if !IsSpace(Rust, s[0]) {
      assert (s + t)[1..] == s[1..] + t;
      WordEndAppend(s[1..], t);
    }
  }

  lemma OneWord(s: string)
    requires IsWord(s)
    ensures WordEnd(Rust, s) == |s| && Words(Rust, s) == [s] && Words(Rust, " " + s) == [s]
  {
    assert WordEnd(Rust, s) == |s|;
    assert s[..|s|] == s && s[|s|..] == "" && (" " + s)[1..] == s;
  }

  lemma {:induction false} WordsAreWords(s: string)
    requires NoSemicolon(s)
    ensures AllWords(Words(Rust, s))
    decreases |s|
  {
    if s != "" {
      if IsSpace(Rust, s[0]) {
        WordsAreWords(s[1..]);
      } else {
        var k := WordEnd(Rust, s);
        WordsAreWords(s[k..]);
        assert IsWord(s[..k]);
      }
    }
  }

  lemma ConstantsAreWords()
    ensures IsWord(LOOPBACK_SOURCE) && IsWord(CONNECT) && IsWord(DEFAULT)
  {
  }

  /** A source appended to a directive is its last source. */
  lemma AddedSource(d: string, source: string)
    requires Clean(d) && IsWord(source)
    ensures Clean(d + " " + source)
    ensures Meaning(Rust, d + " " + source) == Directive(Meaning(Rust, d).name, Meaning(Rust, d).sources + [source])
  {
    CleanAround(d, " ", source);
    SpacedWord(source);
    AddedWord(d, " ", source);
  }

  lemma CleanAround(d: string, space: string, source: string)
    requires Clean(d) && IsWord(source) && NoSemicolon(space)
    ensures Clean(d + space + source)
  {
    var s := d + space + source;
    assert s[0] == d[0] && s[|s| - 1] == source[|source| - 1];
    assert forall c :: c in s ==> c in d || c in space || c in source;
  }

  lemma SpacedWord(source: string)
    requires IsWord(source)
    ensures Words(Rust, " " + source) == [source]
  {
    OneWord(source);
  }

  lemma AddedWord(d: string, space: string, source: string)
    requires Clean(d) && space != "" && IsSpace(Rust, space[0]) && Words(Rust, space + source) == [source]
    ensures Meaning(Rust, d + space + source) == Directive(Meaning(Rust, d).name, Meaning(Rust, d).sources + [source])
  {
    WordsAppend(d, space + source);
    assert d + space + source == d + (space + source);
    assert Words(Rust, d) != [];
  }

  function Spaced(sources: seq<string>): string {
    if sources == [] then "" else sources[0] + " " + Spaced(sources[1..])
  }

  /** Sources written one after the other are read as they are. */
  lemma {:induction false} SpacedWords(sources: seq<string>, last: string)
    requires IsWord(last) && AllWords(sources)
    ensures var m := Spaced(sources) + last;
            NoSemicolon(m) && m != "" && !IsSpace(Rust, m[|m| - 1]) && Words(Rust, " " + m) == sources + [last]
  {
    if sources == [] {
      OneWord(last);
      assert "" + last == last;
    } else {
      var m := Spaced(sources[1..]) + last;
      assert sources == [sources[0]] + sources[1..];
      SpacedWords(sources[1..], last);
      assert Spaced(sources) + last == sources[0] + " " + m;
      SpacedStep(sources[0], m, sources[1..] + [last]);
      assert [sources[0]] + (sources[1..] + [last]) == sources + [last];
    }
  }

  lemma SpacedStep(first: string, m: string, words: seq<string>)
    requires IsWord(first) && NoSemicolon(m) && m != "" && !IsSpace(Rust, m[|m| - 1]) && Words(Rust, " " + m) == words
    ensures var n := first + " " + m;
            NoSemicolon(n) && n != "" && !IsSpace(Rust, n[|n| - 1]) && Words(Rust, " " + n) == [first] + words
  {
    CleanBetween(first, m);
    OneWord(first);
    assert " " + (first + " " + m) == (" " + first) + (" " + m);
    WordsAppend(" " + first, " " + m);
  }

  lemma CleanBetween(first: string, middle: string)
    requires IsWord(first) && middle != "" && NoSemicolon(middle) && !IsSpace(Rust, middle[|middle| - 1])
    ensures Clean(first + " " + middle)
  {
    var d := first + " " + middle;
    assert d[0] == first[0] && d[|d| - 1] == middle[|middle| - 1];
    assert forall i :: 0 <= i < |d| ==>
        d[i] == if i < |first| then first[i] else if i == |first| then ' ' else middle[i - |first| - 1];
  }

  lemma ConnectIsLower()
    ensures Lower(CONNECT) == CONNECT
  {
    LowerIsSame(CONNECT);
  }

  lemma DefaultIsLower()
    ensures Lower(DEFAULT) == DEFAULT
  {
    LowerIsSame(DEFAULT);
  }

  lemma LowerIsSame(s: string)
    requires forall i :: 0 <= i < |s| ==> LowerChar(s[i]) == s[i]
    ensures Lower(s) == s
  {
    if s != "" {
      LowerIsSame(s[1..]);
    }
  }

  /** A directive built from a name and what follows it is read as such. */
  lemma NewDirective(name: string, middle: string, words: seq<string>)
    requires IsWord(name) && middle != "" && Words(Rust, " " + middle) == words
    ensures Meaning(Rust, name + " " + middle) == Directive(Lower(name), words)
  {
    HeadWord(name, " " + middle, words);
    SpaceBetween(name, middle);
    MeaningOf(name + " " + middle, name, words);
  }

  lemma SpaceBetween(name: string, middle: string)
    ensures name + " " + middle == name + (" " + middle)
  {
  }

  lemma HeadWord(name: string, tail: string, words: seq<string>)
    requires IsWord(name) && tail != "" && IsSpace(Rust, tail[0]) && Words(Rust, tail) == words
    ensures Words(Rust, name + tail) == [name] + words
  {
    OneWord(name);
    WordsAppend(name, tail);
  }

  lemma MeaningOf(d: string, name: string, words: seq<string>)
    requires Words(Rust, d) == [name] + words
    ensures Meaning(Rust, d) == Directive(Lower(name), words)
  {
    assert ([name] + words)[1..] == words;
  }

  // ---- the rewriting --------------------------------------------------------------------------------

  /** Whether the first word of a directive is `wanted` in either case. */
  method IsNamed(directives: seq<string>, i: nat, wanted: string) returns (r: bool)
    requires i < |directives| && wanted != "" && Lower(wanted) == wanted
    ensures r <==> Meanings(Rust, directives)[i].name == wanted
  {
    var words := Words(Rust, directives[i]);
    r := words != [] && Lower(words[0]) == Lower(wanted);
    assert Meanings(Rust, directives)[i] == Meaning(Rust, directives[i]);
  }

  /** The first directive whose first word is `wanted` in either case. */
  method Named(directives: seq<string>, wanted: string) returns (r: Option<nat>)
    requires wanted != "" && Lower(wanted) == wanted
    ensures r == Position(Meanings(Rust, directives), wanted)
  {
    ghost var policy := Meanings(Rust, directives);
    for i := 0 to |directives|
      invariant forall k :: 0 <= k < i ==> policy[k].name != wanted
    {
      var found := IsNamed(directives, i, wanted);
      if found {
        PositionIs(policy, wanted, i);
        return Some(i);
      }
    }
    return None;
  }

  /** What the rewriting is for: connections may also go to the loopback, nothing else changes. */
  function Opened(policy: seq<Directive>): seq<Directive> {
    OpenedFor(policy, CONNECT, DEFAULT, LOOPBACK_SOURCE)
  }

  function OpenedFor(policy: seq<Directive>, name: string, fallback: string, source: string): seq<Directive> {
    var own, current := Position(policy, name), InForce(policy, name, fallback);
    var sources := (if current.Some? then current.value else []) + [source];
    if own.Some? then policy[own.value := Directive(name, sources)] else policy + [Directive(name, sources)]
  }

  method WithLoopbackConnect(csp: string) returns (r: string)
    ensures Parse(Rust, r) == Opened(Parse(Rust, csp))
  {
    ConnectIsLower();
    DefaultIsLower();
    ConstantsAreWords();
    r := WithSource(csp, CONNECT, DEFAULT, LOOPBACK_SOURCE);
  }

  /** The rewriting for any names and source. */
  method WithSource(csp: string, connect: string, general: string, source: string) returns (r: string)
    requires IsWord(connect) && Lower(connect) == connect && IsWord(general) && Lower(general) == general
    requires IsWord(source)
    ensures Parse(Rust, r) == OpenedFor(Parse(Rust, csp), connect, general, source)
  {
    var directives := Kept(Rust, Split(csp));
    SplitHasNoSemicolon(csp);
    KeptIsClean(Split(csp));
    directives := Edited(directives, connect, general, source);
    JoinIsRead(directives);
    return Join(directives);
  }

  /** The edit of the local list. */
  method Edited(before: seq<string>, connect: string, general: string, source: string) returns (directives: seq<string>)
    requires AllClean(before) && IsWord(connect) && Lower(connect) == connect && IsWord(general) && Lower(general) == general
    requires IsWord(source)
    ensures directives != [] && AllClean(directives)
    ensures Meanings(Rust, directives) == OpenedFor(Meanings(Rust, before), connect, general, source)
  {
    var own := Named(before, connect);
    if own.Some? {
      directives := Extended(before, own.value, source);
    } else {
      var sources := Inherited(before, general);
      directives := Appended(before, connect, sources, source);
    }
  }

  /** The branch in which the directive exists: the source goes to its end. */
  method Extended(before: seq<string>, own: nat, source: string) returns (directives: seq<string>)
    requires AllClean(before) && own < |before| && IsWord(source)
    ensures directives != [] && AllClean(directives)
    ensures var policy := Meanings(Rust, before);
            Meanings(Rust, directives) == policy[own := Directive(policy[own].name, policy[own].sources + [source])]
  {
    assert before[own] in before;
    AddedSource(before[own], source);
    var directive := before[own] + " " + source;
    Replaced(before, own, directive);
    directives := before[own := directive];
  }

  lemma Replaced(before: seq<string>, own: nat, directive: string)
    requires AllClean(before) && own < |before| && Clean(directive)
    ensures AllClean(before[own := directive])
    ensures Meanings(Rust, before[own := directive]) == Meanings(Rust, before)[own := Meaning(Rust, directive)]
  {
  }

  /** The other branch: what the new directive takes over from the general one. */
  method Inherited(before: seq<string>, general: string) returns (sources: seq<string>)
    requires AllClean(before) && IsWord(general) && Lower(general) == general
    ensures AllWords(sources)
    ensures var position := Position(Meanings(Rust, before), general);
            sources == if position.Some? then Meanings(Rust, before)[position.value].sources else []
  {
    sources := [];
    var position := Named(before, general);
    if position.Some? {
      assert before[position.value] in before;
      WordsAreWords(before[position.value]);
      sources := Words(Rust, before[position.value])[1..];
    }
  }

  /** The new directive at the end of the list. */
  method Appended(before: seq<string>, connect: string, sources: seq<string>, source: string)
    returns (directives: seq<string>)
    requires AllClean(before) && IsWord(connect) && Lower(connect) == connect && AllWords(sources) && IsWord(source)
    ensures directives != [] && AllClean(directives)
    ensures Meanings(Rust, directives) == Meanings(Rust, before) + [Directive(connect, sources + [source])]
  {
    var text := Spaced(sources) + source;
    SpacedWords(sources, source);
    CleanBetween(connect, text);
    NewDirective(connect, text, sources + [source]);
    var directive := connect + " " + text;
    Added(before, directive);
    directives := before + [directive];
  }

  lemma Added(before: seq<string>, directive: string)
    requires AllClean(before) && Clean(directive)
    ensures AllClean(before + [directive])
    ensures Meanings(Rust, before + [directive]) == Meanings(Rust, before) + [Meaning(Rust, directive)]
  {
  }

  // ---- what changes, and what does not --------------------------------------------------------------

  lemma PositionIs(policy: seq<Directive>, name: string, i: nat)
    requires i < |policy| && policy[i].name == name && forall k :: 0 <= k < i ==> policy[k].name != name
    ensures Position(policy, name) == Some(i)
  {
  }

  /** Connections are held to the old sources, own or inherited, and the loopback. */
  lemma LoopbackIsAdded(policy: seq<Directive>)
    ensures Connections(Opened(policy)) ==
              Some((if Connections(policy).Some? then Connections(policy).value else []) + [LOOPBACK_SOURCE])
  {
    SourceIsAdded(policy, CONNECT, DEFAULT, LOOPBACK_SOURCE);
  }

  lemma SourceIsAdded(policy: seq<Directive>, name: string, fallback: string, source: string)
    ensures var current := InForce(policy, name, fallback);
            InForce(OpenedFor(policy, name, fallback, source), name, fallback)
            == Some((if current.Some? then current.value else []) + [source])
  {
    var own := Position(policy, name);
    PositionIs(OpenedFor(policy, name, fallback, source), name, if own.Some? then own.value else |policy|);
  }

  /** Every directive but the first `connect-src` stays where it is, as it is, and as much in force as before. */
  lemma OthersStay(policy: seq<Directive>, i: nat)
    requires i < |policy| && Position(policy, CONNECT) != Some(i)
    ensures i < |Opened(policy)| && Opened(policy)[i] == policy[i]
    ensures Position(policy, policy[i].name) == Some(i) <==> Position(Opened(policy), policy[i].name) == Some(i)
  {
    OthersStayFor(policy, CONNECT, DEFAULT, LOOPBACK_SOURCE, i);
  }

  lemma OthersStayFor(policy: seq<Directive>, name: string, fallback: string, source: string, i: nat)
    requires i < |policy| && Position(policy, name) != Some(i)
    ensures var next := OpenedFor(policy, name, fallback, source);
            i < |next| && next[i] == policy[i]
            && (Position(policy, policy[i].name) == Some(i) <==> Position(next, policy[i].name) == Some(i))
  {
    var next, at := OpenedFor(policy, name, fallback, source), policy[i].name;
    assert forall k :: 0 <= k < |policy| ==> next[k].name == policy[k].name;
    assert Position(policy, at).Some? && Position(next, at).Some?;
    if Position(policy, at) == Some(i) {
      PositionIs(next, at, i);
    }
    if Position(next, at) == Some(i) {
      PositionIs(policy, at, i);
    }
  }

  predicate Permits(sources: Option<seq<string>>, source: string) {
    sources.None? || source in sources.value
  }

  /**
   * Nothing that was allowed is lost if and only if the policy had a `connect-src` or a `default-src`. With
   * neither, connections were free before and every source but the loopback is lost.
   */
  lemma NothingIsLostIff(policy: seq<Directive>)
    ensures (forall source :: Permits(Connections(policy), source) ==> Permits(Connections(Opened(policy)), source))
            <==> Position(policy, CONNECT).Some? || Position(policy, DEFAULT).Some?
    ensures Connections(policy).None? ==>
              forall source :: Permits(Connections(policy), source)
                               && (Permits(Connections(Opened(policy)), source) <==> source == LOOPBACK_SOURCE)
  {
    LoopbackIsAdded(policy);
    if Connections(policy).None? {
      assert [] + [LOOPBACK_SOURCE] == [LOOPBACK_SOURCE];
      OtherSource();
      assert Permits(Connections(policy), "'self'") && !Permits(Connections(Opened(policy)), "'self'");
    }
  }

  lemma OtherSource()
    ensures "'self'" != LOOPBACK_SOURCE
  {
    assert |"'self'"| == 6 && |LOOPBACK_SOURCE| == 18;
  }

  // ---- white space ----------------------------------------------------------------------------------

  /** No character that only one of the two takes for white space: none in a header of visible ASCII. */
  predicate Plain(s: string) {
    forall c :: c in s ==> (IsSpace(Rust, c) <==> IsSpace(Ascii, c))
  }

  lemma PlainTrim(s: string)
    requires Plain(s)
    ensures Trim(Ascii, s) == Trim(Rust, s) && Plain(Trim(Rust, s))
    decreases |s|
  {
    if s != "" {
      assert s[0] in s && s[|s| - 1] in s;
      if IsSpace(Rust, s[0]) {
        PlainTrim(s[1..]);
      } else if IsSpace(Rust, s[|s| - 1]) {
        PlainTrim(s[..|s| - 1]);
      }
    }
  }

  lemma PlainWordEnd(s: string)
    requires Plain(s)
    ensures WordEnd(Ascii, s) == WordEnd(Rust, s)
  {
    if s != "" {
      assert s[0] in s;
      PlainWordEnd(s[1..]);
    }
  }

  lemma PlainWords(s: string)
    requires Plain(s)
    ensures Words(Ascii, s) == Words(Rust, s)
    decreases |s|
  {
    if s != "" {
      assert s[0] in s;
      PlainWordEnd(s);
      if IsSpace(Rust, s[0]) {
        PlainWords(s[1..]);
      } else {
        PlainWords(s[WordEnd(Rust, s)..]);
      }
    }
  }

  lemma PlainSplit(s: string)
    requires Plain(s)
    ensures forall i :: 0 <= i < |Split(s)| ==> Plain(Split(s)[i])
  {
    if s != "" {
      assert s[0] in s;
      PlainSplit(s[1..]);
    }
  }

  lemma PlainKept(pieces: seq<string>)
    requires forall i :: 0 <= i < |pieces| ==> Plain(pieces[i])
    ensures Meanings(Ascii, Kept(Ascii, pieces)) == Meanings(Rust, Kept(Rust, pieces))
  {
    if pieces != [] {
      var piece, rest := Trim(Rust, pieces[0]), Kept(Rust, pieces[1..]);
      PlainTrim(pieces[0]);
      PlainWords(piece);
      PlainKept(pieces[1..]);
      if piece != "" {
        MeaningsCons(Rust, piece, rest);
        MeaningsCons(Ascii, piece, Kept(Ascii, pieces[1..]));
      } else {
        assert Kept(Rust, pieces) == rest && Kept(Ascii, pieces) == Kept(Ascii, pieces[1..]);
      }
    }
  }

  lemma MeaningsCons(w: Alphabet, d: string, ds: seq<string>)
    ensures Meanings(w, [d] + ds) == [Meaning(w, d)] + Meanings(w, ds)
  {
    assert ([d] + ds)[1..] == ds;
  }

  /** On plain text the standard's reading and the one used above are the same. */
  lemma StandardReading(csp: string)
    requires Plain(csp)
    ensures Parse(Ascii, csp) == Parse(Rust, csp)
  {
    PlainSplit(csp);
    PlainKept(Split(csp));
  }
}
