/** Session descriptions on a line of their own: SDP/type/escaped text. */
module SdpFraming {
  import opened Wire

  /** The first position of c at or after a position. */
  function Find(s: string, c: char, from: nat): (r: Option<nat>)
    ensures r.Some? ==> from <= r.value < |s| && s[r.value] == c && forall i :: from <= i < r.value ==> s[i] != c
    ensures r.None? ==> forall i :: from <= i < |s| ==> s[i] != c
    decreases |s| - from
  {
    if from >= |s| then None else if s[from] == c then Some(from) else Find(s, c, from + 1)
  }

  lemma FoundAt(s: string, c: char, from: nat, at: nat)
    requires from <= at < |s| && s[at] == c && forall i :: from <= i < at ==> s[i] != c
    ensures Find(s, c, from) == Some(at)
  {}

  function EscapeChar(c: char): string {
    if c == '\r' then ['\\', 'r'] else if c == '\n' then ['\\', 'n'] else [c]
  }

  function Escaped(s: string): string {
    if s == "" then "" else EscapeChar(s[0]) + Escaped(s[1..])
  }

  lemma EscapedNext(before: string, s: string, i: nat)
    requires i < |s|
    ensures before + Escaped(s[i..]) == (before + EscapeChar(s[i])) + Escaped(s[i + 1..])
  {
    assert s[i..][1..] == s[i + 1..];
  }

  method Escape(sdp: string) returns (escaped: string)
    ensures escaped == Escaped(sdp)
  {
    escaped := "";
    assert sdp[0..] == sdp;
    for i := 0 to |sdp|
      invariant escaped + Escaped(sdp[i..]) == Escaped(sdp)
    {
      EscapedNext(escaped, sdp, i);
      hide Escaped;
      var c := sdp[i];
      if c == '\r' {
        escaped := escaped + ['\\', 'r'];
      } else if c == '\n' {
        escaped := escaped + ['\\', 'n'];
      } else {
        escaped := escaped + [c];
      }
    }
  }

  /** A backslash with the letter r or n after it. */
  predicate Mark(s: string, i: int) {
    0 <= i < |s| - 1 && s[i] == '\\' && (s[i + 1] == 'r' || s[i + 1] == 'n')
  }

  function Unescaped(s: string): string {
    if s == "" then ""
    else if Mark(s, 0) then [if s[1] == 'r' then '\r' else '\n'] + Unescaped(s[2..])
    else [s[0]] + Unescaped(s[1..])
  }

  method Unescape(s: string) returns (result: string)
    ensures result == Unescaped(s)
  {
    result := "";
    var i := 0;
    assert s[0..] == s;
    while i < |s|
      invariant 0 <= i <= |s|
      invariant result + Unescaped(s[i..]) == Unescaped(s)
    {
      UnescapedNext(result, s, i);
      hide Unescaped;
      if s[i] == '\\' && i + 1 < |s| {
        if s[i + 1] == 'r' {
          result := result + ['\r'];
          i := i + 1;
        } else if s[i + 1] == 'n' {
          result := result + ['\n'];
          i := i + 1;
        } else {
          result := result + [s[i]];
        }
      } else {
        result := result + [s[i]];
      }
      i := i + 1;
    }
  }

  lemma UnescapedNext(before: string, s: string, i: nat)
    requires i < |s|
    ensures before + Unescaped(s[i..])
      == if Mark(s, i) then (before + [if s[i + 1] == 'r' then '\r' else '\n']) + Unescaped(s[i + 2..])
         else (before + [s[i]]) + Unescaped(s[i + 1..])
  {
    assert s[i..][1..] == s[i + 1..];
    if Mark(s, i) {
      assert s[i..][2..] == s[i + 2..];
    }
  }

  /** An escaped text stays on its line. */
  lemma {:induction false} NoLineBreaks(s: string)
    ensures '\r' !in Escaped(s) && '\n' !in Escaped(s)
  {
    if s != "" {
      NoLineBreaks(s[1..]);
    }
  }

  /** Unescaping an escaped text does to it what unescaping the text itself would do. */
  lemma {:induction false} EscapeIsTransparent(s: string)
    ensures Unescaped(Escaped(s)) == Unescaped(s)
    decreases |s|
  {
    if s != "" {
      var e, rest := Escaped(s), Escaped(s[1..]);
      EscapeIsTransparent(s[1..]);
      if s[0] == '\r' || s[0] == '\n' {
        assert e[2..] == rest;
      } else {
        assert e[1..] == rest;
        FirstEscaped(s[1..]);
        if Mark(s, 0) {
          assert s[1..][1..] == s[2..];
          EscapeIsTransparent(s[2..]);
          assert e[2..] == Escaped(s[2..]);
        }
      }
    }
  }

  lemma FirstEscaped(s: string)
    ensures s == "" <==> Escaped(s) == ""
    ensures s != "" ==> Escaped(s)[0] == if s[0] == '\r' || s[0] == '\n' then '\\' else s[0]
  {}

  predicate Marked(s: string) { exists i :: 0 <= i < |s| && Mark(s, i) }

  lemma {:induction false} UnescapedShorter(s: string)
    ensures |Unescaped(s)| <= |s|
    ensures if Marked(s) then |Unescaped(s)| < |s| else Unescaped(s) == s
    decreases |s|
  {
    if s != "" {
      var rest := if Mark(s, 0) then s[2..] else s[1..];
      UnescapedShorter(rest);
      if !Mark(s, 0) {
        forall i | 0 <= i < |rest| ensures Mark(rest, i) <==> Mark(s, i + 1) {}
        if Marked(s) {
          var i :| 0 <= i < |s| && Mark(s, i);
          assert Mark(rest, i - 1);
        }
        if Marked(rest) {
          var i :| 0 <= i < |rest| && Mark(rest, i);
          assert Mark(s, i + 1);
        }
      }
    }
  }

  /** Escaping is undone exactly on texts without a backslash before the letter r or n. */
  lemma RoundTripIff(s: string)
    ensures Unescaped(Escaped(s)) == s <==> !Marked(s)
  {
    EscapeIsTransparent(s);
    UnescapedShorter(s);
  }

  // The command line.

  const PREFIX := "SDP/"

  datatype Command = Command(kind: string, text: string)

  /** None: not a command with a session description. */
  method ParseCommand(command: string) returns (r: Option<Command>)
    ensures r == Parsed(command)
  {
    if !(PREFIX <= command) {
      return None;
    }
    var secondSlash := Find(command, '/', 4);
    if secondSlash.None? {
      return None;
    }
    var kind := command[4..secondSlash.value];
    var text := Unescape(command[secondSlash.value + 1..]);
    r := Some(Command(kind, text));
  }

  function Parsed(command: string): Option<Command> {
    if !(PREFIX <= command) then None
    else
      var slash := Find(command, '/', 4);
      if slash.None? then None
      else Some(Command(command[4..slash.value], Unescaped(command[slash.value + 1..])))
  }

  lemma Taken(kind: string, rest: string)
    requires '/' !in kind
    ensures Parsed("SDP/" + kind + "/" + rest) == Some(Command(kind, Unescaped(rest)))
  {
    hide Unescaped;
    var command, at := "SDP/" + kind + "/" + rest, 4 + |kind|;
    assert command[..4] == PREFIX && command[4..at] == kind && command[at] == '/' && command[at + 1..] == rest;
    forall i | 4 <= i < at ensures command[i] != '/' {
      assert command[i] == kind[i - 4];
    }
    FoundAt(command, '/', 4, at);
    hide Find;
  }

  /** A command is taken exactly if it has the prefix and a second slash: what is between them is its
      kind, and what follows its text. */
  lemma TakenIff(command: string, kind: string, text: string)
    ensures Parsed(command) == Some(Command(kind, text)) <==>
      exists rest :: command == "SDP/" + kind + "/" + rest && '/' !in kind && text == Unescaped(rest)
  {
    hide Unescaped;
    if rest :| command == "SDP/" + kind + "/" + rest && '/' !in kind && text == Unescaped(rest) {
      hide Parsed;
      Taken(kind, rest);
    }
    if Parsed(command) == Some(Command(kind, text)) {
      var at := Find(command, '/', 4).value;
      assert command == command[..4] + command[4..at] + [command[at]] + command[at + 1..];
      assert command == "SDP/" + kind + "/" + command[at + 1..];
    }
  }

  /** Every other command is refused. */
  lemma RefusedIff(command: string)
    ensures Parsed(command).None? <==> !("SDP/" <= command && '/' in command[4..])
  {
    if "SDP/" <= command {
      if '/' in command[4..] {
        var i :| 0 <= i < |command[4..]| && command[4..][i] == '/';
        assert command[4 + i] == '/';
      }
    }
  }

  function Line(kind: string, sdp: string): string { PREFIX + kind + "/" + Escaped(sdp) }

  /** A description arrives as if it had been unescaped itself. */
  lemma DeliveredAs(kind: string, sdp: string)
    requires '/' !in kind
    ensures Parsed(Line(kind, sdp)) == Some(Command(kind, Unescaped(sdp)))
  {
    Taken(kind, Escaped(sdp));
    EscapeIsTransparent(sdp);
    hide Parsed;
  }

  /** So it arrives as it was sent exactly if it has no backslash before the letter r or n. */
  lemma DeliveredIff(kind: string, sdp: string)
    requires '/' !in kind
    ensures Parsed(Line(kind, sdp)) == Some(Command(kind, sdp)) <==> !Marked(sdp)
  {
    DeliveredAs(kind, sdp);
    UnescapedShorter(sdp);
  }

  /** A backslash and the letter r arrive as a carriage return. */
  lemma ChangedOnTheWay()
    ensures Parsed(Line("offer", ['\\', 'r'])) == Some(Command("offer", ['\r']))
  {
    var sdp := ['\\', 'r'];
    DeliveredAs("offer", sdp);
    assert sdp[2..] == "" && Mark(sdp, 0);
    assert Unescaped(sdp) == ['\r'] + Unescaped(sdp[2..]) == ['\r'];
    hide Parsed, Line;
  }
}
