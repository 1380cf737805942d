/** Mentions in a message, taken from the tokens that are not escaped and not inside a code block. */
module MentionParser {
  import opened Models

  datatype Token =
    | Escape
    | Marker(kind: nat)
    | UserMention(id: string)
    | RoleMention(id: string)
    | MentionEveryone
    | MentionOnline

  datatype Results = Results(users: set<string>, roles: set<string>, everyone: bool, online: bool)

  /** The position of the first marker of a kind, or the length. */
  function FindMarker(tokens: seq<Token>, kind: nat): (n: nat)
    ensures n <= |tokens|
  {
    if tokens == [] || tokens[0] == Marker(kind) then 0 else 1 + FindMarker(tokens[1..], kind)
  }

  lemma {:induction false} FindMarkerIsFirst(tokens: seq<Token>, kind: nat)
    ensures var n := FindMarker(tokens, kind);
      Marker(kind) !in tokens[..n] && (n < |tokens| ==> tokens[n] == Marker(kind))
    decreases |tokens|
  {
    if tokens != [] && tokens[0] != Marker(kind) {
      FindMarkerIsFirst(tokens[1..], kind);
      assert tokens[..FindMarker(tokens, kind)] == [tokens[0]] + tokens[1..][..FindMarker(tokens[1..], kind)];
    }
  }

  /**
   The tokens a message exposes. An escape swallows the next token; a marker with a later equal
   one collapses to the pair; after a marker without one, the rest is exposed as it is.
   */
  function Parsed(tokens: seq<Token>): seq<Token>
    decreases |tokens|
  {
    if tokens == [] then []
    else
      var rest := tokens[1..];
      match tokens[0]
      case Escape => [Escape] + Parsed(if rest == [] then [] else rest[1..])
      case Marker(kind) =>
        var n := FindMarker(rest, kind);
        if n < |rest| then [Marker(kind), Marker(kind)] + Parsed(rest[n + 1..])
        else [Marker(kind)] + rest
      case _ => [tokens[0]] + Parsed(rest)
  }

  /** What the iterator holds once it has yielded the first token: its buffer and the rest of the input. */
  function AfterFirst(tokens: seq<Token>): (seq<Token>, seq<Token>)
    requires tokens != []
  {
    var rest := tokens[1..];
    match tokens[0]
    case Escape => ([], if rest == [] then [] else rest[1..])
    case Marker(kind) =>
      var n := FindMarker(rest, kind);
      if n < |rest| then ([Marker(kind)], rest[n + 1..]) else (rest, [])
    case _ => ([], rest)
  }

  ghost predicate FirstThenRest(tokens: seq<Token>, buffer: seq<Token>, input: seq<Token>) {
    tokens != [] && Parsed(tokens) == [tokens[0]] + (buffer + Parsed(input))
  }

  lemma ClosedFirst(tokens: seq<Token>, kind: nat, n: nat)
    requires tokens != [] && tokens[0] == Marker(kind) && n == FindMarker(tokens[1..], kind) < |tokens[1..]|
    ensures FirstThenRest(tokens, [Marker(kind)], tokens[1..][n + 1..])
  {
    var tail := Parsed(tokens[1..][n + 1..]);
    assert [Marker(kind), Marker(kind)] + tail == [Marker(kind)] + ([Marker(kind)] + tail);
  }

  lemma OpenFirst(tokens: seq<Token>, kind: nat)
    requires tokens != [] && tokens[0] == Marker(kind) && FindMarker(tokens[1..], kind) == |tokens[1..]|
    ensures FirstThenRest(tokens, tokens[1..], [])
  {
    assert tokens[1..] + Parsed([]) == tokens[1..];
  }

  lemma OtherFirst(tokens: seq<Token>, input: seq<Token>)
    requires tokens != [] && !tokens[0].Marker? && AfterFirst(tokens) == ([], input)
    ensures FirstThenRest(tokens, [], input)
  {
    assert [] + Parsed(input) == Parsed(input);
  }

  /** Yielding the first token and going on from there gives the whole. */
  lemma ParsedByFirst(tokens: seq<Token>)
    requires tokens != []
    ensures FirstThenRest(tokens, AfterFirst(tokens).0, AfterFirst(tokens).1)
  {
    if tokens[0].Marker? {
      var kind := tokens[0].kind;
      var n := FindMarker(tokens[1..], kind);
      if n < |tokens[1..]| {
        ClosedFirst(tokens, kind, n);
      } else {
        OpenFirst(tokens, kind);
      }
    } else {
      OtherFirst(tokens, AfterFirst(tokens).1);
    }
  }

  lemma AfterFirstShorter(tokens: seq<Token>)
    requires tokens != []
    ensures |AfterFirst(tokens).0| + |AfterFirst(tokens).1| < |tokens|
  {
  }

  class MessageParser {
    var inner: seq<Token>
    var temp: seq<Token>

    constructor (tokens: seq<Token>)
      ensures Remaining() == Parsed(tokens)
      ensures temp == [] && inner == tokens
    {
      inner, temp := tokens, [];
    }

    /** What is still to come. */
    function Remaining(): seq<Token>
      reads this
    {
      temp + Parsed(inner)
    }

    /** The iterator yields what remains, one token at a time, and gets strictly shorter. */
    method Next() returns (token: Option<Token>)
      modifies this
      ensures token.None? <==> old(Remaining()) == []
      ensures token.None? ==> Remaining() == []
      ensures token.Some? ==> old(Remaining()) == [token.value] + Remaining()
      ensures token.Some? ==> |temp| + |inner| < old(|temp| + |inner|)
    {
      if temp != [] {
        token := Some(temp[0]);
        temp := temp[1..];
      } else if inner == [] {
        token := None;
      } else {
        ParsedByFirst(inner);
        AfterFirstShorter(inner);
        var first := Advance();
        token := Some(first);
      }
    }

    /** Take the next token of the input, with what it swallows. */
    method Advance() returns (first: Token)
      requires temp == [] && inner != []
      modifies this
      ensures first == old(inner)[0]
      ensures (temp, inner) == AfterFirst(old(inner))
    {
      first := inner[0];
      inner := inner[1..];
      match first {
        case Escape =>
          if inner != [] {
            inner := inner[1..];
          }
        case Marker(kind) =>
          ScanFor(kind);
        case _ =>
      }
    }

    /** Buffer up to the closing marker, and drop the buffer if there is one. */
    method ScanFor(kind: nat)
      requires temp == []
      modifies this
      ensures var n := FindMarker(old(inner), kind);
        if n < |old(inner)| then temp == [Marker(kind)] && inner == old(inner)[n + 1..]
        else temp == old(inner) && inner == []
    {
      ghost var all := inner;
      ghost var n := FindMarker(all, kind);
      FindMarkerIsFirst(all, kind);
      while inner != []
        invariant |temp| <= n
        invariant temp == all[..|temp|] && inner == all[|temp|..]
        decreases |inner|
      {
        var next := inner[0];
        assert next == all[|temp|];
        inner := inner[1..];
        if next == Marker(kind) {
          temp := [Marker(kind)];
          return;
        }
        temp := temp + [next];
      }
    }
  }

  /** What a list of exposed tokens mentions. */
  function Mentions(tokens: seq<Token>): Results {
    Results(set t | t in tokens && t.UserMention? :: t.id,
            set t | t in tokens && t.RoleMention? :: t.id,
            MentionEveryone in tokens,
            MentionOnline in tokens)
  }

  /** The mention sets hold exactly what the specification exposes. */
  method ParseMessage(tokens: seq<Token>) returns (results: Results)
    ensures results == Mentions(Parsed(tokens))
  {
    results := Results({}, {}, false, false);
    var parser := new MessageParser(tokens);
    ghost var all := Parsed(tokens);
    ghost var n := 0;
    var next := Pull(parser, all, 0);
    while next.Some?
      invariant fresh(parser)
      invariant n <= |all| && results == Mentions(all[..n])
      invariant Pulled(all, n, next, parser.Remaining())
      decreases |all| - n
    {
      NotedNext(all, n, next.value);
      results := Noted(results, next.value);
      n := n + 1;
      next := Pull(parser, all, n);
    }
    assert all[..n] == all;
  }

  /** `next` has just been pulled after `n` tokens of `all`, and `remaining` are still to come. */
  ghost predicate Pulled(all: seq<Token>, n: nat, next: Option<Token>, remaining: seq<Token>) {
    match next
    case None => n == |all| && remaining == []
    case Some(token) => n < |all| && token == all[n] && remaining == all[n + 1..]
  }

  method Pull(parser: MessageParser, ghost all: seq<Token>, ghost n: nat) returns (next: Option<Token>)
    requires n <= |all| && parser.Remaining() == all[n..]
    modifies parser
    ensures Pulled(all, n, next, parser.Remaining())
  {
    next := parser.Next();
    PulledNext(all, n, next, parser.Remaining());
  }

  lemma PulledNext(all: seq<Token>, n: nat, next: Option<Token>, remaining: seq<Token>)
    requires n <= |all|
    requires next.None? ==> all[n..] == [] && remaining == []
    requires next.Some? ==> all[n..] == [next.value] + remaining
    ensures Pulled(all, n, next, remaining)
  {
    if next.Some? {
      assert all[n] == all[n..][0] == next.value;
      assert all[n + 1..] == all[n..][1..] == remaining;
    }
  }

  lemma NotedNext(all: seq<Token>, n: nat, token: Token)
    requires n < |all| && all[n] == token
    ensures Mentions(all[..n + 1]) == Noted(Mentions(all[..n]), token)
  {
    assert all[..n + 1] == all[..n] + [token];
    MentionsStep(all[..n], token);
  }

  function Noted(results: Results, token: Token): Results {
    match token
    case Escape => results
    case Marker(_) => results
    case UserMention(id) => results.(users := results.users + {id})
    case RoleMention(id) => results.(roles := results.roles + {id})
    case MentionEveryone => results.(everyone := true)
    case MentionOnline => results.(online := true)
  }

  lemma MentionsStep(tokens: seq<Token>, t: Token)
    ensures Mentions(tokens + [t]) == Noted(Mentions(tokens), t)
  {
    var before, after := Mentions(tokens), Mentions(tokens + [t]);
    assert after.users == before.users + (if t.UserMention? then {t.id} else {});
    assert after.roles == before.roles + (if t.RoleMention? then {t.id} else {});
  }

  // ----- What the specification exposes -----

  predicate Plain(tokens: seq<Token>) {
    forall i :: 0 <= i < |tokens| ==> !tokens[i].Escape? && !tokens[i].Marker?
  }

  /** Tokens before the first escape or marker are exposed as they are. */
  lemma {:induction false} PlainPrefix(plain: seq<Token>, rest: seq<Token>)
    requires Plain(plain)
    ensures Parsed(plain + rest) == plain + Parsed(rest)
    decreases |plain|
  {
    if plain == [] {
      assert plain + rest == rest;
    } else {
      PlainPrefix(plain[1..], rest);
      assert (plain + rest)[1..] == plain[1..] + rest;
    }
  }

  lemma {:induction false} FindMarkerAfter(before: seq<Token>, rest: seq<Token>, kind: nat)
    requires Marker(kind) !in before
    ensures FindMarker(before + rest, kind) == |before| + FindMarker(rest, kind)
    decreases |before|
  {
    if before == [] {
      assert before + rest == rest;
    } else {
      assert before[0] in before;
      assert (before + rest)[1..] == before[1..] + rest;
      FindMarkerAfter(before[1..], rest, kind);
    }
  }

  /** Nothing inside a closed code block is exposed, whatever it holds, and what follows is parsed afresh. */
  lemma ClosedBlockHides(plain: seq<Token>, kind: nat, inside: seq<Token>, rest: seq<Token>)
    requires Plain(plain) && Marker(kind) !in inside
    ensures Parsed(plain + ([Marker(kind)] + (inside + ([Marker(kind)] + rest))))
         == plain + ([Marker(kind), Marker(kind)] + Parsed(rest))
  {
    var tail := inside + ([Marker(kind)] + rest);
    PlainPrefix(plain, [Marker(kind)] + tail);
    assert ([Marker(kind)] + tail)[1..] == tail;
    FindMarkerAfter(inside, [Marker(kind)] + rest, kind);
    assert tail[|inside| + 1..] == rest;
  }

  /** After a marker that is never closed everything is exposed, escaped or inside other blocks though it may be. */
  lemma OpenBlockExposes(plain: seq<Token>, kind: nat, rest: seq<Token>)
    requires Plain(plain) && Marker(kind) !in rest
    ensures Parsed(plain + ([Marker(kind)] + rest)) == plain + ([Marker(kind)] + rest)
  {
    PlainPrefix(plain, [Marker(kind)] + rest);
    assert ([Marker(kind)] + rest)[1..] == rest;
    FindMarkerAfter(rest, [], kind);
    assert rest + [] == rest;
  }

  /** An escape hides the token after it, and only that one. */
  lemma EscapeHidesOne(plain: seq<Token>, hidden: Token, rest: seq<Token>)
    requires Plain(plain)
    ensures Parsed(plain + ([Escape, hidden] + rest)) == plain + ([Escape] + Parsed(rest))
  {
    PlainPrefix(plain, [Escape, hidden] + rest);
    assert ([Escape, hidden] + rest)[1..][1..] == rest;
  }
}
