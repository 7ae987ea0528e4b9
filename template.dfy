/**
 * Command templates of index.js: `formatTemplate` (lines 68-70) replaces every
 * `{user}` and `{pass}` of a template, scanning left to right in one pass, by
 * the context's value, or by the empty string when that value is missing or
 * empty (`ctx[p1] || ''`).
 */
module Template {
  import opened Wrappers
  import Text

  /** The substitution context `{ user, pass }`; a missing value is `None`. */
  datatype Ctx = Ctx(user: Option<string>, pass: Option<string>)

  const UserToken: string := "{user}"
  const PassToken: string := "{pass}"

  /** `ctx[p1] || ''`: a missing value and the empty string both give "". */
  function Value(v: Option<string>): (r: string)
    ensures r == "" <==> v.None? || v.value == ""
    ensures v.Some? ==> r == v.value
  {
    v.GetOr("")
  }

  /** A placeholder, `{user}` or `{pass}`, starts at position `i` of `tpl`. */
  predicate TokenAt(tpl: string, i: int) {
    0 <= i && i + 6 <= |tpl| && (tpl[i..i + 6] == UserToken || tpl[i..i + 6] == PassToken)
  }

  predicate NoTokens(tpl: string) {
    forall i :: 0 <= i < |tpl| ==> !TokenAt(tpl, i)
  }

  /** No `{` among the last five characters: no placeholder can start there. */
  predicate ClosedEnd(tpl: string) {
    forall k :: 0 <= k < |tpl| && |tpl| - 5 <= k ==> tpl[k] != '{'
  }

  /** Every placeholder starts with `{`, so a text without `{` has none. */
  lemma NoBraceNoTokens(tpl: string)
    requires '{' !in tpl
    ensures NoTokens(tpl) && ClosedEnd(tpl)
  {
    forall i | 0 <= i < |tpl|
      ensures !TokenAt(tpl, i)
    {
      if i + 6 <= |tpl| {
        assert tpl[i..i + 6][0] == tpl[i] && tpl[i] in tpl;
      }
    }
  }

  lemma TokenAtTail(tpl: string, n: nat)
    requires n <= |tpl|
    ensures forall i :: 0 <= i < |tpl| - n ==> (TokenAt(tpl[n..], i) <==> TokenAt(tpl, i + n))
  {
    forall i | 0 <= i < |tpl| - n
      ensures TokenAt(tpl[n..], i) <==> TokenAt(tpl, i + n)
    {
      Text.ShiftAt(tpl, UserToken, n, i);
      Text.ShiftAt(tpl, PassToken, n, i);
      assert TokenAt(tpl[n..], i) <==> Text.OccursAt(tpl[n..], UserToken, i) || Text.OccursAt(tpl[n..], PassToken, i);
      assert TokenAt(tpl, i + n) <==> Text.OccursAt(tpl, UserToken, i + n) || Text.OccursAt(tpl, PassToken, i + n);
    }
  }

  /**
   * `formatTemplate(tpl, ctx)`. A template without placeholders comes back
   * unchanged.
   */
  function Format(tpl: string, ctx: Ctx): (r: string)
    ensures NoTokens(tpl) ==> r == tpl
    decreases |tpl|
  {
    if |tpl| >= 6 && tpl[..6] == UserToken then
      assert TokenAt(tpl, 0);
      ctx.user.GetOr("") + Format(tpl[6..], ctx)
    else if |tpl| >= 6 && tpl[..6] == PassToken then
      assert TokenAt(tpl, 0);
      ctx.pass.GetOr("") + Format(tpl[6..], ctx)
    else if tpl == [] then
      []
    else
      TokenAtTail(tpl, 1);
      assert NoTokens(tpl) ==> NoTokens(tpl[1..]);
      [tpl[0]] + Format(tpl[1..], ctx)
  }

  /** Substituting each placeholder by its own text gives the template back. */
  lemma {:induction false} FormatIdentity(tpl: string)
    ensures Format(tpl, Ctx(Some(UserToken), Some(PassToken))) == tpl
    decreases |tpl|
  {
    var ctx := Ctx(Some(UserToken), Some(PassToken));
    if |tpl| >= 6 && tpl[..6] == UserToken {
      FormatIdentity(tpl[6..]);
      assert tpl == tpl[..6] + tpl[6..];
    } else if |tpl| >= 6 && tpl[..6] == PassToken {
      FormatIdentity(tpl[6..]);
      assert tpl == tpl[..6] + tpl[6..];
    } else if tpl != [] {
      FormatIdentity(tpl[1..]);
      assert tpl == [tpl[0]] + tpl[1..];
    }
  }

  /**
   * The scan of `a + b` splits at the end of `a` when no placeholder can
   * start in the last five characters of `a`.
   */
  lemma {:induction false} FormatAppend(a: string, b: string, ctx: Ctx)
    requires ClosedEnd(a)
    ensures Format(a + b, ctx) == Format(a, ctx) + Format(b, ctx)
    decreases |a|
  {
    var ab := a + b;
    if a == [] {
      assert ab == b;
    } else if |a| >= 6 && a[..6] == UserToken {
      assert ab[..6] == a[..6];
      assert ab[6..] == a[6..] + b;
      FormatAppend(a[6..], b, ctx);
    } else if |a| >= 6 && a[..6] == PassToken {
      assert ab[..6] == a[..6];
      assert ab[6..] == a[6..] + b;
      FormatAppend(a[6..], b, ctx);
    } else {
      ClosedHead(a, b);
      assert ab[1..] == a[1..] + b;
      FormatAppend(a[1..], b, ctx);
    }
  }

  /** A `{` at position 1 to 5 rules out a placeholder at position 0. */
  lemma BraceInside(s: string, k: nat)
    requires 0 < k < 6 && k < |s| && s[k] == '{'
    ensures !(|s| >= 6 && (s[..6] == UserToken || s[..6] == PassToken))
  {
    if |s| >= 6 {
      assert s[..6][k] == '{';
      assert UserToken[1..] == "user}" && PassToken[1..] == "pass}";
      assert UserToken[k] == UserToken[1..][k - 1] && PassToken[k] == PassToken[1..][k - 1];
    }
  }

  /**
   * The scan of `a + r` splits where `r` starts when `r` starts with `{`:
   * a placeholder has its only `{` at its head, so no placeholder can start
   * in `a` and end inside `r`.
   */
  lemma {:induction false} FormatBeforeBrace(a: string, r: string, ctx: Ctx)
    requires r != [] && r[0] == '{'
    ensures Format(a + r, ctx) == Format(a, ctx) + Format(r, ctx)
    decreases |a|
  {
    var ar := a + r;
    if a == [] {
      assert ar == r;
    } else if |a| >= 6 && a[..6] == UserToken {
      assert ar[..6] == a[..6];
      assert ar[6..] == a[6..] + r;
      FormatBeforeBrace(a[6..], r, ctx);
    } else if |a| >= 6 && a[..6] == PassToken {
      assert ar[..6] == a[..6];
      assert ar[6..] == a[6..] + r;
      FormatBeforeBrace(a[6..], r, ctx);
    } else {
      assert !(|ar| >= 6 && (ar[..6] == UserToken || ar[..6] == PassToken)) by {
        if |a| >= 6 {
          assert ar[..6] == a[..6];
        } else {
          assert ar[|a|] == '{';
          BraceInside(ar, |a|);
        }
      }
      assert ar[1..] == a[1..] + r;
      FormatBeforeBrace(a[1..], r, ctx);
    }
  }

  /** With `ClosedEnd(a)`, a placeholder at the head of `a + b` lies in `a`. */
  lemma ClosedHead(a: string, b: string)
    requires ClosedEnd(a) && a != [] && !(|a| >= 6 && (a[..6] == UserToken || a[..6] == PassToken))
    ensures !(|a + b| >= 6 && ((a + b)[..6] == UserToken || (a + b)[..6] == PassToken))
  {
    var ab := a + b;
    if |a| >= 6 {
      assert ab[..6] == a[..6];
    } else if |ab| >= 6 {
      assert a[0] != '{';
      assert ab[..6][0] == a[0];
    }
  }

  /**
   * One pass: every placeholder is replaced by its value, which is emitted
   * verbatim and never rescanned, whatever placeholders it contains itself
   * and whatever precedes the placeholder.
   */
  lemma FormatSinglePass(a: string, b: string, ctx: Ctx)
    ensures Format(a + UserToken + b, ctx) == Format(a, ctx) + Value(ctx.user) + Format(b, ctx)
    ensures Format(a + PassToken + b, ctx) == Format(a, ctx) + Value(ctx.pass) + Format(b, ctx)
  {
    FormatBeforeToken(a, UserToken, b, ctx);
    FormatBeforeToken(a, PassToken, b, ctx);
    FormatAfterUser(b, ctx);
    FormatAfterPass(b, ctx);
  }

  /** The split of `FormatBeforeBrace` just before a placeholder. */
  lemma FormatBeforeToken(a: string, tok: string, b: string, ctx: Ctx)
    requires tok == UserToken || tok == PassToken
    ensures Format(a + tok + b, ctx) == Format(a, ctx) + Format(tok + b, ctx)
  {
    Regroup(a, tok, b);
    assert (tok + b)[0] == tok[0];
    FormatBeforeBrace(a, tok + b, ctx);
  }

  lemma Regroup(a: string, b: string, c: string)
    ensures a + b + c == a + (b + c)
  {
  }

  /** A leading `{user}` becomes the user value. */
  lemma FormatAfterUser(b: string, ctx: Ctx)
    ensures (UserToken + b)[0] == '{'
    ensures Format(UserToken + b, ctx) == Value(ctx.user) + Format(b, ctx)
  {
    assert (UserToken + b)[..6] == UserToken;
    assert (UserToken + b)[6..] == b;
  }

  /** A leading `{pass}` becomes the password value. */
  lemma FormatAfterPass(b: string, ctx: Ctx)
    ensures (PassToken + b)[0] == '{'
    ensures Format(PassToken + b, ctx) == Value(ctx.pass) + Format(b, ctx)
  {
    assert (PassToken + b)[..6] == PassToken;
    assert (PassToken + b)[6..] == b;
    assert PassToken[1] != UserToken[1];
  }

  /** A literal text, a placeholder, and the rest of the template. */
  lemma FormatLiteralThen(a: string, b: string, ctx: Ctx)
    requires '{' !in a
    ensures Format(a + UserToken + b, ctx) == a + Value(ctx.user) + Format(b, ctx)
    ensures Format(a + PassToken + b, ctx) == a + Value(ctx.pass) + Format(b, ctx)
  {
    NoBraceNoTokens(a);
    FormatSinglePass(a, b, ctx);
  }

  /** A literal, `{user}`, a literal, `{pass}`: the shape of a register command. */
  lemma FormatUserThenPass(a: string, m: string, ctx: Ctx)
    requires '{' !in a && '{' !in m
    ensures Format(a + UserToken + m + PassToken, ctx) == a + Value(ctx.user) + m + Value(ctx.pass)
  {
    var rest := m + PassToken;
    assert a + UserToken + m + PassToken == a + UserToken + rest;
    FormatLiteralThen(a, rest, ctx);
    assert rest == m + PassToken + "";
    FormatLiteralThen(m, "", ctx);
    assert Format("", ctx) == "";
  }

  /** The default register command, `/register {user} {pass}` (index.js:20). */
  lemma DefaultRegisterCommand(ctx: Ctx)
    ensures Format("/register {user} {pass}", ctx) == "/register " + Value(ctx.user) + " " + Value(ctx.pass)
  {
    assert "/register {user} {pass}" == "/register " + UserToken + " " + PassToken;
    FormatUserThenPass("/register ", " ", ctx);
  }

  /** The default login command, `/login {pass}` (index.js:21). */
  lemma DefaultLoginCommand(ctx: Ctx)
    ensures Format("/login {pass}", ctx) == "/login " + Value(ctx.pass)
  {
    assert "/login {pass}" == "/login " + PassToken + "";
    FormatLiteralThen("/login ", "", ctx);
  }
}
