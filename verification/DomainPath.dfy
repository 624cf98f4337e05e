/** Resolution of CloudStack domains by path (pkg/cloud/user_credentials.go). */
module DomainPath {
  import opened Faults

  const DELIMITER := '/'
  const ROOT := "ROOT"

  // ---- Splitting and joining -----------------------------------------------------------------

  function Split(s: string): (tokens: seq<string>)
    ensures |tokens| >= 1
  {
    if s == "" then [""]
    else
      var rest := Split(s[1..]);
      if s[0] == DELIMITER then [""] + rest else [[s[0]] + rest[0]] + rest[1..]
  }

  function Join(tokens: seq<string>): string {
    if tokens == [] then ""
    else if |tokens| == 1 then tokens[0]
    else tokens[0] + [DELIMITER] + Join(tokens[1..])
  }

  function Delimiters(s: string): nat {
    if s == "" then 0 else (if s[0] == DELIMITER then 1 else 0) + Delimiters(s[1..])
  }

  predicate Plain(token: string) { DELIMITER !in token }

  lemma {:induction false} SplitIsPlain(s: string)
    ensures forall token :: token in Split(s) ==> Plain(token)
  {
    if s != "" {
      SplitIsPlain(s[1..]);
      var rest := Split(s[1..]);
      assert rest[0] in rest;
    }
  }

  lemma JoinEmptyFirst(rest: seq<string>)
    requires rest != []
    ensures Join([""] + rest) == [DELIMITER] + Join(rest)
  {
    assert ([""] + rest)[1..] == rest;
  }

  lemma JoinLongerFirst(c: char, rest: seq<string>)
    requires rest != []
    ensures Join([[c] + rest[0]] + rest[1..]) == [c] + Join(rest)
  {
    assert ([[c] + rest[0]] + rest[1..])[1..] == rest[1..];
    if |rest| > 1 {
      var tail := [DELIMITER] + Join(rest[1..]);
      assert rest[0] + [DELIMITER] + Join(rest[1..]) == rest[0] + tail;
      assert [c] + rest[0] + [DELIMITER] + Join(rest[1..]) == [c] + (rest[0] + tail);
    }
  }

  lemma {:induction false} JoinUndoesSplit(s: string)
    ensures Join(Split(s)) == s
  {
    if s != "" {
      JoinUndoesSplit(s[1..]);
      var rest := Split(s[1..]);
      assert s == [s[0]] + s[1..];
      if s[0] == DELIMITER { JoinEmptyFirst(rest); } else { JoinLongerFirst(s[0], rest); }
    }
  }

  lemma {:induction false} SplitPlain(token: string)
    requires Plain(token)
    ensures Split(token) == [token]
  {
    if token != "" {
      SplitPlain(token[1..]);
      assert token == [token[0]] + token[1..];
    }
  }

  lemma {:induction false} SplitFirst(token: string, rest: string)
    requires Plain(token)
    ensures Split(token + [DELIMITER] + rest) == [token] + Split(rest)
  {
    var s := token + [DELIMITER] + rest;
    if token == "" {
      assert s[1..] == rest;
    } else {
      SplitFirst(token[1..], rest);
      assert s[1..] == token[1..] + [DELIMITER] + rest;
      assert token == [token[0]] + token[1..];
    }
  }

  lemma {:induction false} SplitUndoesJoin(tokens: seq<string>)
    requires tokens != [] && forall token :: token in tokens ==> Plain(token)
    ensures Split(Join(tokens)) == tokens
  {
    if |tokens| == 1 {
      SplitPlain(tokens[0]);
    } else {
      SplitUndoesJoin(tokens[1..]);
      SplitFirst(tokens[0], Join(tokens[1..]));
    }
  }

  lemma {:induction false} TokensAndDelimiters(s: string)
    ensures |Split(s)| == Delimiters(s) + 1
  {
    if s != "" { TokensAndDelimiters(s[1..]); }
  }

  // ---- Comparison up to letter case ----------------------------------------------------------

  /** ASCII letters suffice for the comparison with ROOT: no other character folds to one of its letters. */
  function Upper(c: char): char { if 'a' <= c <= 'z' then c - 'a' + 'A' else c }

  predicate EqualFold(a: string, b: string) { |a| == |b| && forall i :: 0 <= i < |a| ==> Upper(a[i]) == Upper(b[i]) }

  /** Which tokens are the root. */
  lemma FoldsToRoot(token: string)
    ensures EqualFold(token, ROOT) <==>
              |token| == 4 && token[0] in "Rr" && token[1] in "Oo" && token[2] in "Oo" && token[3] in "Tt"
  {
    if EqualFold(token, ROOT) {
      assert Upper(token[0]) == 'R' && Upper(token[1]) == 'O' && Upper(token[2]) == 'O' && Upper(token[3]) == 'T';
    }
  }

  // ---- Normalisation -------------------------------------------------------------------------

  datatype Domain = Domain(name: string, path: string, id: string)

  function Rooted(tokens: seq<string>): seq<string>
    requires tokens != []
  {
    if EqualFold(tokens[0], ROOT) then [ROOT] + tokens[1..] else [ROOT] + tokens
  }

  /** The tokens searched by; none if no path is given. */
  function TokensOf(path: string): seq<string> { if path == "" then [] else Rooted(Split(path)) }

  /** The domain with its path rooted; the last token provides the name if there is none. */
  function WithTokens(d: Domain, tokens: seq<string>): Domain
    requires tokens != []
  {
    d.(name := if d.name == "" then tokens[|tokens| - 1] else d.name, path := Join(Rooted(tokens)))
  }

  function Normalized(d: Domain): Domain { if d.path == "" then d else WithTokens(d, Split(d.path)) }

  lemma RootedIsPlain(path: string)
    requires path != ""
    ensures forall token :: token in TokensOf(path) ==> Plain(token)
    ensures TokensOf(path) != [] && TokensOf(path)[0] == ROOT
  {
    SplitIsPlain(path);
  }

  lemma RootStays(tokens: seq<string>)
    requires tokens != [] && tokens[0] == ROOT
    ensures Rooted(tokens) == tokens && Join(tokens) != ""
  {
  }

  /** Rooting changes the last token at most in letter case, and only if there is no other. */
  lemma RootedLast(tokens: seq<string>)
    requires tokens != []
    ensures var last, rooted := tokens[|tokens| - 1], Rooted(tokens);
            EqualFold(last, rooted[|rooted| - 1]) && (|rooted| > 1 ==> last == rooted[|rooted| - 1])
  {
  }

  /** The tokens searched by are those of the path they are joined to. */
  lemma JoinedTokens(path: string)
    requires path != ""
    ensures var tokens := TokensOf(path);
            && Split(Join(tokens)) == tokens && tokens != [] && tokens[0] == ROOT
            && |tokens| - 1 == Delimiters(Join(tokens))
  {
    RootedIsPlain(path);
    SplitUndoesJoin(TokensOf(path));
    TokensAndDelimiters(Join(TokensOf(path)));
  }

  lemma NormalizedFields(d: Domain)
    requires d.path != ""
    ensures var n, tokens := Normalized(d), Split(d.path);
            && n.path == Join(TokensOf(d.path)) && TokensOf(d.path) == Rooted(tokens) && n.id == d.id
            && n.name == (if d.name == "" then tokens[|tokens| - 1] else d.name)
  {
  }

  /** A normalised path starts with exactly ROOT, is searched at the level that is the number of its delimiters, and a
      name that was missing is its last token, up to letter case if it is the root alone. */
  lemma NormalizedPath(d: Domain)
    requires d.path != ""
    ensures var n, tokens := Normalized(d), TokensOf(d.path);
            && Split(n.path) == tokens && tokens != [] && tokens[0] == ROOT
            && |tokens| - 1 == Delimiters(n.path)
            && n.id == d.id
            && (d.name != "" ==> n.name == d.name)
            && (d.name == "" ==> EqualFold(n.name, tokens[|tokens| - 1])
                                 && (|tokens| > 1 ==> n.name == tokens[|tokens| - 1]))
  {
    NormalizedFields(d);
    JoinedTokens(d.path);
    RootedLast(Split(d.path));
  }

  lemma LastOfRooted(tokens: seq<string>)
    requires tokens != [] && tokens[|tokens| - 1] == ""
    ensures Rooted(tokens)[|Rooted(tokens)| - 1] == ""
  {
  }

  /** A name that is still missing comes from a path that ends in a delimiter. */
  lemma NamelessPath(d: Domain)
    requires d.path != "" && Normalized(d).name == ""
    ensures TokensOf(d.path)[|TokensOf(d.path)| - 1] == ""
  {
    LastOfRooted(Split(d.path));
  }

  /** A domain that needs no normalisation: its path is rooted, and a name is missing only if the path ends without
      one. */
  predicate IsNormal(n: Domain, tokens: seq<string>) {
    && tokens != [] && tokens[0] == ROOT && n.path != "" && Split(n.path) == tokens && Join(tokens) == n.path
    && (n.name == "" ==> tokens[|tokens| - 1] == "")
  }

  lemma NormalizedIsNormal(d: Domain)
    requires d.path != ""
    ensures IsNormal(Normalized(d), TokensOf(d.path))
  {
    NormalizedFields(d);
    JoinedTokens(d.path);
    RootStays(TokensOf(d.path));
    if Normalized(d).name == "" { NamelessPath(d); }
  }

  lemma NormalStays(n: Domain, tokens: seq<string>)
    requires IsNormal(n, tokens)
    ensures Normalized(n) == n && TokensOf(n.path) == tokens
  {
    RootStays(tokens);
    assert WithTokens(n, tokens) == n;
  }

  /** Normalising again changes nothing: neither the path, nor what it is searched by, nor the name. */
  lemma NormalizingIsIdempotent(d: Domain)
    ensures Normalized(Normalized(d)) == Normalized(d)
    ensures TokensOf(Normalized(d).path) == TokensOf(d.path)
  {
    if d.path != "" {
      NormalizedIsNormal(d);
      NormalStays(Normalized(d), TokensOf(d.path));
    }
  }

  lemma RootIsPlain(root: string)
    requires EqualFold(root, ROOT)
    ensures Plain(root)
  {
    forall c | c in root ensures c != DELIMITER {
      var i :| 0 <= i < |root| && root[i] == c;
      assert Upper(root[i]) == Upper(ROOT[i]);
    }
  }

  /** Paths that differ only in how they name the root normalise to the same path. */
  lemma SamePath(rest: string, root: string)
    requires EqualFold(root, ROOT) && rest != "" && !EqualFold(Split(rest)[0], ROOT)
    ensures Normalized(Domain("", root + [DELIMITER] + rest, "")).path == Normalized(Domain("", rest, "")).path
         == ROOT + [DELIMITER] + rest
  {
    RootIsPlain(root);
    SplitFirst(root, rest);
    assert ([root] + Split(rest))[1..] == Split(rest);
    assert ([ROOT] + Split(rest))[1..] == Split(rest);
    JoinUndoesSplit(rest);
  }

  // ---- Resolution ----------------------------------------------------------------------------

  /** A domain as CloudStack lists it. */
  datatype Found = Found(id: string, name: string, path: string)

  datatype Outcome = Resolved | NotOneById | PathMismatch | NotOneByName | NotFound | ListFailed

  /** The first domain listed under exactly this path. */
  function AtPath(found: seq<Found>, path: string): Option<Found> {
    if found == [] then None else if found[0].path == path then Some(found[0]) else AtPath(found[1..], path)
  }

  /** Go's comparison of any two strings up to letter case, by the folding of Unicode. */
  type Folding = (string, string) -> bool

  function Resolution(fold: Folding, d: Domain, reply: Reply<seq<Found>>): (Domain, Outcome) {
    var n := Normalized(d);
    if reply.Failed? then (n, ListFailed)
    else
      var found := reply.value;
      if n.id != "" then
        if |found| != 1 then (n, NotOneById)
        else if n.path != "" && !fold(found[0].path, n.path) then (n, PathMismatch)
        else (n.(path := found[0].path, name := found[0].name), Resolved)
      else if n.path == "" && n.name != "" && |found| != 1 then (n, NotOneByName)
      else match AtPath(found, n.path)
        case Some(f) => (n.(id := f.id), Resolved)
        case None => (n, NotFound)
  }

  class DomainObject {
    var name: string
    var path: string
    var id: string

    constructor (d: Domain)
      ensures View() == d
    {
      name, path, id := d.name, d.path, d.id;
    }

    function View(): Domain
      reads this
    {
      Domain(name, path, id)
    }

    /** The path is parsed, rooted and written back, and may provide the name. */
    method Normalize() returns (tokens: seq<string>)
      modifies this
      ensures View() == Normalized(old(View())) && tokens == TokensOf(old(path))
    {
      tokens := [];
      if path != "" {
        tokens := Split(path);
        if name == "" { name := tokens[|tokens| - 1]; }
        if !EqualFold(tokens[0], ROOT) {
          tokens := [ROOT] + tokens;
        } else {
          tokens := tokens[0 := ROOT];
          assert tokens == [ROOT] + Split(old(path))[1..];
        }
        path := Join(tokens);
      }
    }

    method FindByPath(found: seq<Found>) returns (outcome: Outcome)
      modifies this
      ensures match AtPath(found, old(path))
              case Some(f) => View() == old(View()).(id := f.id) && outcome == Resolved
              case None => View() == old(View()) && outcome == NotFound
    {
      var i := 0;
      while i < |found|
        invariant 0 <= i <= |found| && View() == old(View())
        invariant AtPath(found, path) == AtPath(found[i..], path)
      {
        if found[i].path == path {
          id := found[i].id;
          return Resolved;
        }
        i := i + 1;
      }
      return NotFound;
    }

    /** `list` is the answer of the API to a name, an identifier and, if there is one, a level. */
    method ResolveDomain(fold: Folding, list: (string, string, Option<nat>) -> Reply<seq<Found>>)
        returns (outcome: Outcome)
      modifies this
      ensures var tokens := TokensOf(old(path));
              var n := Normalized(old(View()));
              var level := if tokens == [] then None else Some(|tokens| - 1);
              (View(), outcome) == Resolution(fold, old(View()), list(n.name, n.id, level))
    {
      var tokens := Normalize();
      var level: Option<nat> := if |tokens| >= 1 then Some(|tokens| - 1) else None;
      var reply := list(name, id, level);
      if reply.Failed? { return ListFailed; }
      var found := reply.value;
      if id != "" {
        if |found| != 1 { return NotOneById; }
        if path != "" && !fold(found[0].path, path) { return PathMismatch; }
        path, name := found[0].path, found[0].name;
        return Resolved;
      }
      if path == "" && name != "" && |found| != 1 { return NotOneByName; }
      outcome := FindByPath(found);
    }
  }

  lemma {:induction false} AtPathIs(found: seq<Found>, path: string)
    ensures AtPath(found, path).Some? <==> exists f :: f in found && f.path == path
    ensures AtPath(found, path).Some? ==> AtPath(found, path).value in found && AtPath(found, path).value.path == path
  {
    if found != [] {
      AtPathIs(found[1..], path);
      assert found == [found[0]] + found[1..];
    }
  }

  /** By path: found exactly if the list holds a domain of the normalised path, and it is one of those. */
  lemma ResolvedByPath(fold: Folding, d: Domain, found: seq<Found>)
    requires d.path != "" && d.id == ""
    ensures var (d', outcome) := Resolution(fold, d, Reply(found));
            && (outcome == Resolved <==> exists f :: f in found && f.path == Normalized(d).path)
            && (outcome == Resolved ==>
                  exists f :: f in found && f.path == d'.path == Normalized(d).path && f.id == d'.id)
  {
    NormalizedPath(d);
    AtPathIs(found, Normalized(d).path);
  }

  /** By name alone: the one domain listed is not taken for the answer; it is found only if its path is empty. */
  lemma ResolvedByNameAlone(fold: Folding, d: Domain, found: seq<Found>)
    requires d.path == "" && d.id == "" && d.name != ""
    ensures Resolution(fold, d, Reply(found)).1 == Resolved <==> |found| == 1 && found[0].path == ""
  {
    AtPathIs(found, "");
  }

  /** By identifier: resolved exactly if one domain is listed and its path is the given one up to letter case, if one
      was given; name and path are then the listed ones. */
  lemma ResolvedById(fold: Folding, d: Domain, found: seq<Found>)
    requires d.id != ""
    ensures var (d', outcome) := Resolution(fold, d, Reply(found));
            && (outcome == Resolved <==> |found| == 1 && (d.path == "" || fold(found[0].path, Normalized(d).path)))
            && (outcome == Resolved ==> d' == Domain(found[0].name, found[0].path, d.id))
  {
    if d.path != "" { NormalizedPath(d); }
  }
}
