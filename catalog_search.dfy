/**
 * `filteredProducts` of screens/HomeScreen.jsx: a blank search shows every product;
 * otherwise a product stays when its lower-cased title contains the lower-cased search.
 * `toLowerCase` is passed in as `lower`, a function about which nothing is assumed.
 */
module CatalogSearch {
  import opened Wrappers
  import opened Products

  /** A catalogue entry as `product?.` sees it: possibly null. */
  type Entry = Option<Product>

  /** The characters `String.prototype.trim` strips: ECMAScript WhiteSpace and LineTerminator. */
  predicate IsWhitespace(c: char) {
    c == '\t' || c == '\n' || c == '\U{0B}' || c == '\U{0C}' || c == '\r' || c == ' ' ||
    c == '\U{A0}' || c == '\U{1680}' || ('\U{2000}' <= c <= '\U{200A}') ||
    c == '\U{2028}' || c == '\U{2029}' || c == '\U{202F}' || c == '\U{205F}' ||
    c == '\U{3000}' || c == '\U{FEFF}'
  }

  /** Drops leading whitespace. */
  function TrimStart(s: string): (r: string)
    ensures r == [] || !IsWhitespace(r[0])
    ensures (r == []) <==> forall i :: 0 <= i < |s| ==> IsWhitespace(s[i])
    ensures |r| <= |s| && r == s[|s| - |r|..]
  {
    if s != [] && IsWhitespace(s[0]) then
      var r := TrimStart(s[1..]);
      assert forall i :: 1 <= i < |s| ==> s[i] == s[1..][i - 1];
      r
    else s
  }

  /** Drops trailing whitespace. */
  function TrimEnd(s: string): (r: string)
    ensures r == [] || !IsWhitespace(r[|r| - 1])
    ensures (r == []) <==> forall i :: 0 <= i < |s| ==> IsWhitespace(s[i])
    ensures r <= s
  {
    if s != [] && IsWhitespace(s[|s| - 1]) then
      var r := TrimEnd(s[..|s| - 1]);
      assert forall i :: 0 <= i < |s| - 1 ==> s[i] == s[..|s| - 1][i];
      r
    else s
  }

  /**
   * `s.trim()`: a piece of `s` that neither starts nor ends with whitespace. It is empty,
   * so `!search.trim()` holds, exactly when `s` is whitespace only.
   */
  function Trim(s: string): (r: string)
    ensures |r| <= |s|
    ensures r == [] <==> forall i :: 0 <= i < |s| ==> IsWhitespace(s[i])
    ensures r != [] ==> !IsWhitespace(r[0]) && !IsWhitespace(r[|r| - 1])
  {
    var t := TrimStart(s);
    var r := TrimEnd(t);
    assert t != [] ==> t[0] in t;
    assert r != [] ==> r[0] == t[0];
    r
  }

  /** `haystack.includes(needle)`: some suffix of `haystack` starts with `needle`. */
  function Includes(haystack: string, needle: string): (b: bool)
    ensures needle == [] ==> b
    ensures needle <= haystack ==> b
    ensures b ==> |needle| <= |haystack|
  {
    assert needle <= haystack ==> needle <= haystack[0..];
    exists i | 0 <= i <= |haystack| :: needle <= haystack[i..]
  }

  /**
   * The filter callback `product?.title?.toLowerCase().includes(search.toLowerCase())`:
   * null entries and untitled products never match, and a search that lower-cases to ""
   * matches every titled product.
   */
  function Matches(entry: Entry, search: string, lower: string -> string): (b: bool)
    ensures b ==> entry.Some? && entry.value.title.Some?
    ensures lower(search) == [] ==> (b <==> entry.Some? && entry.value.title.Some?)
  {
    entry.Some? && entry.value.title.Some? && Includes(lower(entry.value.title.value), lower(search))
  }

  /** `r` is `s` with some elements left out, the rest in their original order. */
  predicate IsSubsequence<T(==)>(r: seq<T>, s: seq<T>) {
    if r == [] then true
    else if s == [] then false
    else (r[0] == s[0] && IsSubsequence(r[1..], s[1..])) || IsSubsequence(r, s[1..])
  }

  lemma {:induction false} SubsequenceOfItself<T>(s: seq<T>)
    ensures IsSubsequence(s, s)
  {
    if s != [] {
      SubsequenceOfItself(s[1..]);
    }
  }

  /** `products.filter(callback)` */
  function KeepMatching(products: seq<Entry>, search: string, lower: string -> string): (r: seq<Entry>)
    ensures IsSubsequence(r, products)
    ensures forall e :: e in r ==> Matches(e, search, lower)
    ensures forall e :: Matches(e, search, lower) ==> multiset(r)[e] == multiset(products)[e]
  {
    if products == [] then []
    else
      var rest := KeepMatching(products[1..], search, lower);
      assert products == [products[0]] + products[1..];
      if Matches(products[0], search, lower) then
        var r := [products[0]] + rest;
        assert r[1..] == rest;
        r
      else rest
  }

  /** `filteredProducts` */
  function FilteredProducts(products: seq<Entry>, search: string, lower: string -> string): (r: seq<Entry>)
    ensures Trim(search) == [] ==> r == products
    ensures IsSubsequence(r, products)
    ensures Trim(search) != [] ==> forall e :: e in r ==> Matches(e, search, lower)
    ensures Trim(search) != [] ==> forall e :: e in products && Matches(e, search, lower) ==> e in r
  {
    if Trim(search) == [] then
      SubsequenceOfItself(products);
      products
    else KeepMatching(products, search, lower)
  }

  /** For a non-blank search, products without a title (and null entries) are dropped. */
  lemma UntitledDropped(products: seq<Entry>, search: string, lower: string -> string, e: Entry)
    requires Trim(search) != []
    requires e.None? || e.value.title.None?
    ensures e !in FilteredProducts(products, search, lower)
  {
  }

  /** A search starting with a non-whitespace character is not blank. */
  lemma NotBlank(search: string)
    requires search != [] && !IsWhitespace(search[0])
    ensures Trim(search) != []
  {
  }

  /**
   * The match uses the search as typed; trimming only decides whether the search is
   * blank. With `lower` the identity, "shirt " finds nothing in a product titled
   * "shirt" while "shirt" finds it.
   */
  lemma UntrimmedSearch()
    ensures var products := [Some(Product(1, Some("shirt"), 0, ""))];
            var lower := (s: string) => s;
            FilteredProducts(products, "shirt ", lower) == [] &&
            FilteredProducts(products, "shirt", lower) == products
  {
    var products := [Some(Product(1, Some("shirt"), 0, ""))];
    var lower := (s: string) => s;
    NotBlank("shirt ");
    NotBlank("shirt");
    assert !Matches(products[0], "shirt ", lower);
    assert Matches(products[0], "shirt", lower) by {
      assert lower("shirt") == "shirt";
      assert "shirt" <= "shirt"[0..];
    }
    assert KeepMatching(products[1..], "shirt", lower) == [];
    assert KeepMatching(products[1..], "shirt ", lower) == [];
  }
}
