/** What blanking means on the text itself: where comments and strings begin and
    end, said without the reading machine. */
module BlancTexte {
  import opened Blanc

  /** Consecutive backslashes just before `k`, inside the string opened at `a`. */
  function Slashes(s: string, a: nat, k: nat): nat
    requires k <= |s|
  {
    if k > a + 1 && s[k - 1] == '\\' then 1 + Slashes(s, a, k - 1) else 0
  }

  /** A quote that ends the string opened at `a`: an even number of backslashes,
      each pair one escaped backslash, stands before it. */
  predicate Closes(s: string, a: nat, k: nat) { a < k < |s| && s[k] == '"' && Slashes(s, a, k) % 2 == 0 }

  ghost predicate Unclosed(s: string, a: nat, k: nat) { forall i :: a < i < k ==> !Closes(s, a, i) }

  /** The comment from `a` goes up to the next newline, or the end. */
  predicate IsComment(s: string, a: nat, b: nat)
    requires a < b <= |s|
  {
    (forall k :: a <= k < b ==> s[k] != '\n') && (b < |s| ==> s[b] == '\n')
  }

  /** The string from `a` goes up to its first closing quote, or the end. */
  ghost predicate IsString(s: string, a: nat, b: nat)
    requires a < b <= |s|
  {
    (Closes(s, a, b - 1) && Unclosed(s, a, b - 1)) || (b == |s| && Unclosed(s, a, b))
  }

  ghost predicate Token(s: string, a: nat, b: nat)
  {
    && a < b <= |s|
    && if CommentAt(s, a) then IsComment(s, a, b) else if s[a] == '"' then IsString(s, a, b) else b == a + 1
  }

  /** The text cut into comments, strings and single characters of code. */
  ghost predicate Cuts(s: string, cuts: seq<nat>)
  {
    && cuts != [] && cuts[0] == 0 && cuts[|cuts| - 1] == |s|
    && forall i :: 0 <= i < |cuts| - 1 ==> Token(s, cuts[i], cuts[i + 1])
  }

  lemma TokenNotLonger(s: string, a: nat, b: nat, c: nat)
    requires Token(s, a, b) && b < c
    ensures !Token(s, a, c)
  {
    if CommentAt(s, a) { assert b < |s| ==> s[b] == '\n'; } else if s[a] == '"' { assert Closes(s, a, b - 1) || b == |s|; }
  }

  lemma TokenUnique(s: string, a: nat, b: nat, c: nat)
    requires Token(s, a, b) && Token(s, a, c)
    ensures b == c
  {
    if b < c { TokenNotLonger(s, a, b, c); } else if c < b { TokenNotLonger(s, a, c, b); }
  }

  /** There is only one way to cut a text. */
  lemma {:induction false} CutsAgree(s: string, x: seq<nat>, y: seq<nat>, i: nat)
    requires Cuts(s, x) && Cuts(s, y) && i < |x|
    ensures i < |y| && x[i] == y[i]
  {
    if i > 0 {
      CutsAgree(s, x, y, i - 1);
      assert Token(s, x[i - 1], x[i - 1 + 1]);
      if i < |y| {
        assert Token(s, y[i - 1], y[i - 1 + 1]);
        TokenUnique(s, x[i - 1], x[i], y[i]);
      }
    }
  }

  lemma CutsUnique(s: string, x: seq<nat>, y: seq<nat>)
    requires Cuts(s, x) && Cuts(s, y)
    ensures x == y
  {
    CutsAgree(s, x, y, |x| - 1);
    CutsAgree(s, y, x, |y| - 1);
    forall i | 0 <= i < |x| ensures x[i] == y[i] { CutsAgree(s, x, y, i); }
  }

  /** What is left of a piece: blanks for a comment; two quotes, one further if
      need be, around blanks for a string; code as it is. */
  ghost predicate Shown(s: string, out: string, a: nat, b: nat)
    requires a < b <= |s| <= |out|
  {
    if CommentAt(s, a) then forall k :: a <= k < b ==> out[k] == ' '
    else if s[a] == '"' then
      && out[a] == '"' && (forall k :: a < k < b - 1 ==> out[k] == ' ')
      && (if b == a + 1 then |out| == |s| + 1 && out[|s|] == '"' else out[b - 1] == '"')
    else out[a] == s[a]
  }

  // ---- The machine reads the pieces ----

  lemma {:induction false} InsideComment(s: string, a: nat, k: nat)
    requires a < k <= |s| && CommentAt(s, a) && ModeAt(s, a).Code? && forall i :: a <= i < k ==> s[i] != '\n'
    ensures ModeAt(s, k).Comment?
  {
    if k > a + 1 { InsideComment(s, a, k - 1); }
  }

  /** Inside a string, a character is escaped exactly if an odd number of
      backslashes stands before it. */
  lemma {:induction false} InsideString(s: string, a: nat, k: nat)
    requires a < k <= |s| && s[a] == '"' && !CommentAt(s, a) && ModeAt(s, a).Code? && Unclosed(s, a, k)
    ensures ModeAt(s, k) == if k == a + 1 then Opened else if Slashes(s, a, k) % 2 == 1 then Esc else Str
  {
    if k > a + 1 {
      InsideString(s, a, k - 1);
      assert !Closes(s, a, k - 1);
    }
  }

  lemma CommentReads(s: string, a: nat, b: nat)
    requires Token(s, a, b) && CommentAt(s, a) && ModeAt(s, a).Code?
    ensures Between(s, b) && forall k :: a <= k < b ==> Emit(s, k) == ' '
  {
    forall k | a <= k < b ensures Emit(s, k) == ' ' { if k > a { InsideComment(s, a, k); } }
    InsideComment(s, a, b);
  }

  lemma StringReads(s: string, a: nat, b: nat)
    requires Token(s, a, b) && !CommentAt(s, a) && s[a] == '"' && ModeAt(s, a).Code?
    ensures Emit(s, a) == '"' && forall k :: a < k < b - 1 ==> Emit(s, k) == ' '
    ensures if b > a + 1 && Closes(s, a, b - 1) && Unclosed(s, a, b - 1) then Emit(s, b - 1) == '"' && ModeAt(s, b).Code?
            else b == |s| && (if b == a + 1 then ModeAt(s, b).Opened? else ModeAt(s, b).Str? || ModeAt(s, b).Esc?)
  {
    forall k | a < k < b - 1 ensures Emit(s, k) == ' ' {
      InsideString(s, a, k);
      assert !Closes(s, a, k);
    }
    if b > a + 1 && Closes(s, a, b - 1) && Unclosed(s, a, b - 1) {
      InsideString(s, a, b - 1);
    } else {
      InsideString(s, a, b);
    }
  }

  /** Where a piece begins: in code, or on the newline that ends a comment. */
  lemma PieceReads(s: string, a: nat, b: nat)
    requires Token(s, a, b) && Between(s, a)
    ensures Shown(s, Blank(s), a, b) && (b < |s| ==> Between(s, b))
  {
    if ModeAt(s, a).Comment? {
      assert s[a] == '\n';
    } else if CommentAt(s, a) {
      CommentReads(s, a, b);
    } else if s[a] == '"' {
      StringReads(s, a, b);
    }
  }

  lemma {:induction false} FindNewline(s: string, a: nat, k: nat) returns (b: nat)
    requires a < k <= |s| && forall i :: a <= i < k ==> s[i] != '\n'
    ensures a < b <= |s| && IsComment(s, a, b)
    decreases |s| - k
  {
    if k == |s| || s[k] == '\n' { b := k; } else { b := FindNewline(s, a, k + 1); }
  }

  lemma {:induction false} FindClose(s: string, a: nat, k: nat) returns (b: nat)
    requires a < k <= |s| && Unclosed(s, a, k)
    ensures a < b <= |s| && IsString(s, a, b)
    decreases |s| - k
  {
    if k == |s| { b := k; } else if Closes(s, a, k) { b := k + 1; } else { b := FindClose(s, a, k + 1); }
  }

  lemma NextToken(s: string, a: nat) returns (b: nat)
    requires a < |s|
    ensures Token(s, a, b)
  {
    if CommentAt(s, a) { b := FindNewline(s, a, a + 1); } else if s[a] == '"' { b := FindClose(s, a, a + 1); } else { b := a + 1; }
  }

  /** The piece after the `i`-th cut. */
  ghost predicate Piece(s: string, cuts: seq<nat>, i: nat)
    requires i + 1 < |cuts|
  {
    && Token(s, cuts[i], cuts[i + 1]) && Between(s, cuts[i])
    && |Blank(s)| >= |s| && Shown(s, Blank(s), cuts[i], cuts[i + 1])
  }

  lemma {:induction false} CutsFrom(s: string, a: nat) returns (cuts: seq<nat>)
    requires a <= |s| && (a < |s| ==> Between(s, a))
    ensures cuts != [] && cuts[0] == a && cuts[|cuts| - 1] == |s|
    ensures forall i :: 0 <= i < |cuts| - 1 ==> Piece(s, cuts, i)
    decreases |s| - a
  {
    if a == |s| {
      cuts := [a];
    } else {
      var b := NextToken(s, a);
      PieceReads(s, a, b);
      var rest := CutsFrom(s, b);
      cuts := [a] + rest;
      forall i | 0 <= i < |cuts| - 1 ensures Piece(s, cuts, i) {
        if i > 0 { assert Piece(s, rest, i - 1); }
      }
    }
  }

  lemma LastPiece(s: string, a: nat)
    requires Token(s, a, |s|) && Between(s, a)
    ensures |Blank(s)| == |s| + (if a == |s| - 1 && s[a] == '"' then 1 else 0)
  {
    BlankKeepsCode(s, |s| - 1);
    if ModeAt(s, a).Code? {
      if CommentAt(s, a) {
        InsideComment(s, a, |s| - 1);
      } else if s[a] == '"' {
        StringReads(s, a, |s|);
        if a < |s| - 1 { InsideString(s, a, |s| - 1); }
      }
    }
  }

  /** The one cutting of the text, and what is left of each piece: strings end at
      their first quote with an even number of backslashes before it, comments at
      the newline, and code is kept.  One character is added exactly if the last
      piece is a lone quote. */
  lemma BlankByPieces(s: string) returns (cuts: seq<nat>)
    ensures Cuts(s, cuts) && |Blank(s)| >= |s|
    ensures forall i :: 0 <= i < |cuts| - 1 ==> Shown(s, Blank(s), cuts[i], cuts[i + 1])
    ensures |Blank(s)| == |s| + (if s != [] && |cuts| >= 2 && s[|s| - 1] == '"' && cuts[|cuts| - 2] == |s| - 1 then 1 else 0)
  {
    cuts := CutsFrom(s, 0);
    forall i | 0 <= i < |cuts| - 1 ensures Token(s, cuts[i], cuts[i + 1]) { assert Piece(s, cuts, i); }
    if s != [] {
      assert Piece(s, cuts, |cuts| - 2);
      LastPiece(s, cuts[|cuts| - 2]);
    }
    forall i | 0 <= i < |cuts| - 1 ensures Shown(s, Blank(s), cuts[i], cuts[i + 1]) { assert Piece(s, cuts, i); }
  }
}
