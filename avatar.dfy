/** The avatar shown on both settings pages: the image URL and the initials
    fallback computed from the user's name. */
module Avatar {
  import opened Wrappers
  import opened Text

  /** `user.avatar_url || "/placeholder.svg"`. */
  function AvatarSrc(avatarUrl: Option<string>): (src: string)
    ensures src != ""
    ensures avatarUrl.Some? && avatarUrl.value != "" ==> src == avatarUrl.value
    ensures avatarUrl.None? || avatarUrl.value == "" ==> src == "/placeholder.svg"
  {
    if avatarUrl.Some? && avatarUrl.value != "" then avatarUrl.value else "/placeholder.svg"
  }

  /** `tokens.map((n) => n[0]).join("")`: an empty token's `n[0]` is
      `undefined`, which `join` writes as nothing. */
  function InitialsOf(tokens: seq<string>): (r: string)
    ensures |r| <= |tokens|
    ensures forall k :: 0 <= k < |r| ==> exists j :: 0 <= j < |tokens| && tokens[j] != [] && r[k] == tokens[j][0]
  {
    if tokens == [] then ""
    else
      var rest := InitialsOf(tokens[1..]);
      assert forall k :: 0 <= k < |rest| ==> exists j :: 0 <= j < |tokens| && tokens[j] != [] && rest[k] == tokens[j][0] by {
        forall k | 0 <= k < |rest|
          ensures exists j :: 0 <= j < |tokens| && tokens[j] != [] && rest[k] == tokens[j][0]
        {
          var j :| 0 <= j < |tokens[1..]| && tokens[1..][j] != [] && rest[k] == tokens[1..][j][0];
          assert tokens[j + 1] == tokens[1..][j];
        }
      }
      (if tokens[0] == [] then "" else [tokens[0][0]]) + rest
  }

  /** The initials of a name: one character per non-empty " "-separated token. */
  function Initials(name: string): string {
    InitialsOf(Split(name, ' '))
  }

  /** Every token non-empty: exactly one initial per token, in order. */
  lemma {:induction false} InitialsOfNonEmpty(tokens: seq<string>)
    requires forall k :: 0 <= k < |tokens| ==> tokens[k] != []
    ensures |InitialsOf(tokens)| == |tokens|
    ensures forall k :: 0 <= k < |tokens| ==> InitialsOf(tokens)[k] == tokens[k][0]
  {
    if tokens != [] {
      InitialsOfNonEmpty(tokens[1..]);
      var rest := InitialsOf(tokens[1..]);
      assert InitialsOf(tokens) == [tokens[0][0]] + rest;
      forall k | 0 < k < |tokens| ensures InitialsOf(tokens)[k] == tokens[k][0] {
        assert tokens[k] == tokens[1..][k - 1];
      }
    }
  }

  /** A name made of non-empty words separated by single spaces has the
      words' first letters as its initials. */
  lemma WordInitials(words: seq<string>)
    requires |words| >= 1
    requires forall k :: 0 <= k < |words| ==> words[k] != [] && ' ' !in words[k]
    ensures |Initials(Join(words, ' '))| == |words|
    ensures forall k :: 0 <= k < |words| ==> Initials(Join(words, ' '))[k] == words[k][0]
  {
    SplitJoin(words, ' ');
    InitialsOfNonEmpty(words);
  }

  lemma InitialsOfWordsExample()
    ensures Initials("John Doe") == "JD"
  {
    WordInitials(["John", "Doe"]);
    assert Join(["John", "Doe"], ' ') == "John Doe";
  }

  /** One token's contribution, then the rest. */
  lemma InitialsOfCons(t: string, tail: seq<string>)
    ensures InitialsOf([t] + tail) == (if t == [] then [] else [t[0]]) + InitialsOf(tail)
  {
    assert ([t] + tail)[1..] == tail;
  }

  /** A leading space makes an empty first token, which contributes nothing. */
  lemma LeadingSpaceSkipped(rest: string)
    ensures Initials([' '] + rest) == Initials(rest)
  {
    SplitCons([], ' ', rest);
    assert [] + [' '] + rest == [' '] + rest;
    InitialsOfCons([], Split(rest, ' '));
  }

  /** So does the empty token between two spaces after the first word. */
  lemma DoubledSpaceSkipped(first: string, rest: string)
    requires ' ' !in first
    ensures Initials(first + [' ', ' '] + rest) == Initials(first + [' '] + rest)
  {
    var tail := Split(rest, ' ');
    SplitCons(first, ' ', [' '] + rest);
    assert first + [' '] + ([' '] + rest) == first + [' ', ' '] + rest;
    LeadingSpaceSkipped(rest);
    SplitCons([], ' ', rest);
    assert [] + [' '] + rest == [' '] + rest;
    SplitCons(first, ' ', rest);
    InitialsOfCons(first, [[]] + tail);
    InitialsOfCons([], tail);
    InitialsOfCons(first, tail);
  }
}
