/** The token stream the analyzer reads: the output of PHP's `token_get_all`.
    A token is either a bare one-character string (`{`, `(`, `;`, ...) or a pair
    of a token id and the token's text. Only the ids the scanner tests are
    distinguished; every other id is `Other`. */
module Tokens {

  datatype TokenId =
    | Whitespace              // T_WHITESPACE
    | Variable                // T_VARIABLE, e.g. `$this`
    | ObjectOperator          // T_OBJECT_OPERATOR, `->`
    | Identifier              // T_STRING, a bare name
    | Private                 // T_PRIVATE
    | Protected               // T_PROTECTED
    | Public                  // T_PUBLIC
    | Function                // T_FUNCTION
    | CurlyOpen               // T_CURLY_OPEN, `{$` inside a string
    | DollarOpenCurlyBraces   // T_DOLLAR_OPEN_CURLY_BRACES, `${` inside a string
    | Other(code: int)        // any other token id

  datatype Token = Char(c: char) | Tok(id: TokenId, text: string)

  /** `isToken($token, $tokenId)` with a single id: a bare character never matches. */
  predicate IsToken(t: Token, id: TokenId)
  {
    t.Tok? && t.id == id
  }

  /** `isToken($token, $tokenIds)` with an array of ids. */
  predicate IsTokenIn(t: Token, ids: set<TokenId>)
  {
    t.Tok? && t.id in ids
  }

  /** The two forms of `isToken` agree: testing one id is testing the one-element list,
      and a test against a list matches exactly when one of the ids matches. */
  lemma IsTokenForms(t: Token, ids: set<TokenId>)
    ensures forall id :: IsTokenIn(t, {id}) == IsToken(t, id)
    ensures IsTokenIn(t, ids) <==> exists id :: id in ids && IsToken(t, id)
    ensures t.Char? ==> !IsTokenIn(t, ids)
  {
    if IsTokenIn(t, ids) {
      assert t.id in ids && IsToken(t, t.id);
    }
  }

  predicate IsThis(t: Token)
  {
    IsToken(t, Variable) && t.text == "$this"
  }

  /** T_PRIVATE, T_PROTECTED or T_PUBLIC, spelled out so that it needs no set reasoning. */
  predicate IsVisibility(t: Token)
  {
    t.Tok? && (t.id == Private || t.id == Protected || t.id == Public)
  }

  lemma IsVisibilityForm(t: Token)
    ensures IsVisibility(t) <==> IsTokenIn(t, {Private, Protected, Public})
  {
  }

  /** T_DOLLAR_OPEN_CURLY_BRACES or T_CURLY_OPEN: the tokens that open a brace inside a string. */
  predicate IsStringBrace(t: Token)
  {
    t.Tok? && (t.id == DollarOpenCurlyBraces || t.id == CurlyOpen)
  }

  lemma IsStringBraceForm(t: Token)
    ensures IsStringBrace(t) <==> IsTokenIn(t, {DollarOpenCurlyBraces, CurlyOpen})
  {
  }
}
