/** The guard scripts read Rust as text: comments and strings are blanked with
    positions kept, then blocks are found by matching brackets. */
module Blanc {
  const QUOTE := '"'

  // ---- The reference: one character at a time ----

  /** How a character is read.  `Opened` is `Str` with nothing read since the
      opening quote. */
  datatype Mode = Code | Comment | Opened | Str | Esc

  predicate InString(m: Mode) { m.Opened? || m.Str? || m.Esc? }

  predicate CommentAt(s: string, i: nat) { i + 1 < |s| && s[i] == '/' && s[i + 1] == '/' }

  function Next(s: string, k: nat, m: Mode): Mode
    requires k < |s|
  {
    match m
    case Code => if CommentAt(s, k) then Comment else if s[k] == QUOTE then Opened else Code
    case Comment => if s[k] == '\n' then Code else Comment
    case Opened => if s[k] == '\\' then Esc else if s[k] == QUOTE then Code else Str
    case Str => if s[k] == '\\' then Esc else if s[k] == QUOTE then Code else Str
    case Esc => Str
  }

  /** The mode in which character `k` is read; at the length, how the text ends. */
  function ModeAt(s: string, k: nat): Mode
    requires k <= |s|
  {
    if k == 0 then Code else Next(s, k - 1, ModeAt(s, k - 1))
  }

  function Emit(s: string, k: nat): char
    requires k < |s|
  {
    match ModeAt(s, k)
    case Code => if CommentAt(s, k) then ' ' else s[k]
    case Comment => if s[k] == '\n' then '\n' else ' '
    case Opened => if s[k] == QUOTE then QUOTE else ' '
    case Str => if s[k] == QUOTE then QUOTE else ' '
    case Esc => ' '
  }

  function Lex(s: string): (out: string)
    ensures |out| == |s|
  {
    seq(|s|, k requires 0 <= k < |s| => Emit(s, k))
  }

  /** The blanked text: a string left open is closed, on the last character or,
      when the opening quote is the last character, one further. */
  function Blank(s: string): string
  {
    var m := ModeAt(s, |s|);
    if m.Opened? then Lex(s) + [QUOTE]
    else if m.Str? || m.Esc? then Lex(s)[..|s| - 1] + [QUOTE]
    else Lex(s)
  }

  // ---- What blanking keeps ----

  predicate IsCode(s: string, k: nat)
    requires k < |s|
  {
    ModeAt(s, k).Code? && !CommentAt(s, k)
  }

  /** Every code character, quotes included, is found unchanged at its index, and
      nothing else is left but blanks, newlines that end comments and closing
      quotes; the length is kept, save for a text that ends by opening a string. */
  lemma BlankKeepsCode(s: string, k: nat)
    requires k < |s|
    ensures |Blank(s)| == |s| + (if s[|s| - 1] == QUOTE && IsCode(s, |s| - 1) then 1 else 0)
    ensures IsCode(s, k) ==> Blank(s)[k] == s[k]
    ensures !IsCode(s, k) ==> Blank(s)[k] == ' ' || Blank(s)[k] == QUOTE || Blank(s)[k] == s[k] == '\n'
  {
    assert ModeAt(s, |s|) == Next(s, |s| - 1, ModeAt(s, |s| - 1));
  }

  /** How the blanked text is read back: comments have become code, escapes have
      become plain blanks of their string. */
  function Reread(m: Mode): Mode
  {
    match m
    case Code => Code
    case Comment => Code
    case Opened => Opened
    case Str => Str
    case Esc => Str
  }

  /** `t` is the output for `s`, up to the repair of its last character. */
  ghost predicate Blanked(s: string, t: string)
  {
    && 0 < |s| <= |t|
    && (forall i :: 0 <= i < |s| - 1 ==> t[i] == Emit(s, i))
    && (t[|s| - 1] == Emit(s, |s| - 1) || t[|s| - 1] == QUOTE)
    && (forall i :: |s| <= i < |t| ==> t[i] == QUOTE)
  }

  lemma NoNewComment(s: string, t: string, k: nat)
    requires Blanked(s, t) && k < |s| && (ModeAt(s, k).Code? || ModeAt(s, k).Comment?)
    ensures !CommentAt(t, k)
  {
    if k + 1 < |s| { assert ModeAt(s, k + 1) == Next(s, k, ModeAt(s, k)); }
  }

  lemma {:induction false} ModeReread(s: string, t: string, k: nat)
    requires Blanked(s, t) && k < |s|
    ensures ModeAt(t, k) == Reread(ModeAt(s, k))
  {
    if k > 0 {
      ModeReread(s, t, k - 1);
      assert ModeAt(s, k) == Next(s, k - 1, ModeAt(s, k - 1)) && ModeAt(t, k) == Next(t, k - 1, ModeAt(t, k - 1));
      if ModeAt(s, k - 1).Code? || ModeAt(s, k - 1).Comment? { NoNewComment(s, t, k - 1); }
    }
  }

  /** Read back, the output gives itself, character by character. */
  lemma EmitReread(s: string, k: nat)
    requires s != [] && k < |s| && Blanked(s, Blank(s))
    ensures Emit(Blank(s), k) == Blank(s)[k]
  {
    var t := Blank(s);
    ModeReread(s, t, k);
    if ModeAt(s, k).Code? || ModeAt(s, k).Comment? { NoNewComment(s, t, k); }
  }

  lemma LastReread(s: string)
    requires s != [] && Blanked(s, Blank(s))
    ensures var t := Blank(s); ModeAt(t, |t|).Code? && Lex(t) == t
  {
    var t, n := Blank(s), |s| - 1;
    ModeReread(s, t, n);
    assert ModeAt(s, |s|) == Next(s, n, ModeAt(s, n)) && ModeAt(t, |s|) == Next(t, n, ModeAt(t, n));
    if ModeAt(s, n).Code? || ModeAt(s, n).Comment? { NoNewComment(s, t, n); }
    forall k | 0 <= k < |t| ensures Lex(t)[k] == t[k] {
      if k < |s| { EmitReread(s, k); }
    }
  }

  /** Blanking twice is blanking once. */
  lemma BlankIdempotent(s: string)
    ensures Blank(Blank(s)) == Blank(s)
  {
    if s != [] {
      assert ModeAt(s, |s|) == Next(s, |s| - 1, ModeAt(s, |s| - 1));
      LastReread(s);
    }
  }

  // ---- The scan ----

  function Spaces(n: nat): (r: string)
    ensures |r| == n
  {
    seq(n, _ => ' ')
  }

  /** Between two turns of the scan: in code, or on the newline that ends a
      comment. */
  predicate Between(s: string, i: nat)
    requires i <= |s|
  {
    ModeAt(s, i).Code? || (ModeAt(s, i).Comment? && (i == |s| || s[i] == '\n'))
  }

  /** `find` of the end of line from a comment's start, or the length. */
  method FinDeLigne(texte: string, i: nat) returns (j: nat)
    requires CommentAt(texte, i) && ModeAt(texte, i).Code?
    ensures i < j <= |texte| && Between(texte, j) && forall k :: i <= k < j ==> Emit(texte, k) == ' '
  {
    j := i + 1;
    while j < |texte| && texte[j] != '\n'
      invariant i < j <= |texte| && ModeAt(texte, j).Comment? && forall k :: i <= k < j ==> Emit(texte, k) == ' '
    {
      j := j + 1;
    }
  }

  /** The closing quote of the string opened at `i`, or past the end; all that is
      inside is blanked. */
  method FinDeChaine(texte: string, i: nat) returns (j: nat)
    requires i < |texte| && texte[i] == QUOTE && ModeAt(texte, i).Code?
    ensures i < j && (j < |texte| ==> texte[j] == QUOTE && Emit(texte, j) == QUOTE && ModeAt(texte, j + 1).Code?)
    ensures forall k :: i < k < j && k < |texte| ==> Emit(texte, k) == ' '
    ensures j >= |texte| ==> if i == |texte| - 1 then ModeAt(texte, |texte|).Opened? else ModeAt(texte, |texte|).Str? || ModeAt(texte, |texte|).Esc?
  {
    j := i + 1;
    while j < |texte| && texte[j] != QUOTE
      invariant i < j <= |texte| + 1
      invariant j <= |texte| ==> if j == i + 1 then ModeAt(texte, j).Opened? else ModeAt(texte, j).Str?
      invariant j == |texte| + 1 ==> i + 1 < |texte| && ModeAt(texte, |texte|).Esc?
      invariant forall k :: i < k < j && k < |texte| ==> Emit(texte, k) == ' '
      decreases |texte| - j
    {
      ghost var m := ModeAt(texte, j);
      assert Emit(texte, j) == ' ' && ModeAt(texte, j + 1) == Next(texte, j, m);
      if texte[j] == '\\' && j + 1 < |texte| {
        assert ModeAt(texte, j + 2) == Next(texte, j + 1, ModeAt(texte, j + 1));
      }
      j := j + (if texte[j] == '\\' then 2 else 1);
    }
    if j < |texte| { assert ModeAt(texte, j + 1) == Next(texte, j, ModeAt(texte, j)); }
  }

  /** Index `i` over the text, the output accumulated. */
  method SansCommentaires(texte: string) returns (sortie: string)
    ensures sortie == Blank(texte)
  {
    sortie := [];
    var i, n := 0, |texte|;
    while i < n
      invariant i <= n ==> Between(texte, i) && sortie == Lex(texte)[..i]
      invariant i > n ==> sortie == Blank(texte)
      decreases n - i
    {
      if CommentAt(texte, i) {
        var j := FinDeLigne(texte, i);
        sortie := sortie + Spaces(j - i);
        i := j;
      } else if texte[i] == QUOTE {
        var j := FinDeChaine(texte, i);
        var inside := (if j <= n - 1 then j else n - 1) - i - 1;
        sortie := sortie + ([QUOTE] + Spaces(if inside > 0 then inside else 0) + [QUOTE]);
        i := j + 1;
      } else {
        sortie := sortie + [texte[i]];
        i := i + 1;
      }
    }
  }
}
