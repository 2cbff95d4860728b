/** The payer registry (dao/acccounts.go): payers indexed by id, by name and
    by the search tokens of their name, and the tokenizer that derives those
    tokens. Strings are ASCII: one character per byte. */
module Accounts {
  import opened Domain

  /** Go RE2's `\s`: tab, newline, form feed, carriage return and space. */
  predicate IsSpace(c: char)
  {
    c == '\t' || c == '\n' || c == '\U{000C}' || c == '\r' || c == ' '
  }

  /** `strings.ToLower` on ASCII. */
  function LowerChar(c: char): char
  {
    if 'A' <= c <= 'Z' then (c as int + 32) as char else c
  }

  function ToLower(s: string): string
  {
    seq(|s|, i requires 0 <= i < |s| => LowerChar(s[i]))
  }

  /** How many characters of `s` match `\s`, counted from its multiset of characters. */
  ghost function SpaceCount(s: string): nat
  {
    multiset(s)['\t'] + multiset(s)['\n'] + multiset(s)['\U{000C}'] + multiset(s)['\r'] + multiset(s)[' ']
  }

  /** The matches of `\s` in `s`, left to right (FindAll with no limit):
      one single-character token per whitespace character, holding that
      very character; any other character yields nothing. */
  function WhitespaceTokens(s: string): (tokens: seq<string>)
    ensures |tokens| == SpaceCount(s)
    ensures forall i :: 0 <= i < |tokens| ==> |tokens[i]| == 1 && IsSpace(tokens[i][0])
  {
    if s == [] then []
    else
      assert s == [s[0]] + s[1..];
      assert multiset(s) == multiset{s[0]} + multiset(s[1..]);
      (if IsSpace(s[0]) then [[s[0]]] else []) + WhitespaceTokens(s[1..])
  }

  lemma ConcatAssoc<T>(x: seq<T>, y: seq<T>, z: seq<T>)
    ensures x + (y + z) == (x + y) + z
  {
  }

  /** The matches keep their order: the tokens of a concatenation are the
      tokens of its first part followed by those of its second. With the
      one-character case below this fixes every token: the name's own
      whitespace characters, left to right. */
  lemma {:induction false} WhitespaceTokensAppend(a: string, b: string)
    ensures WhitespaceTokens(a + b) == WhitespaceTokens(a) + WhitespaceTokens(b)
  {
    if a == [] {
      assert a + b == b;
    } else {
      var head: seq<string> := if IsSpace(a[0]) then [[a[0]]] else [];
      assert (a + b)[0] == a[0] && (a + b)[1..] == a[1..] + b;
      assert WhitespaceTokens(a + b) == head + WhitespaceTokens(a[1..] + b);
      WhitespaceTokensAppend(a[1..], b);
      assert WhitespaceTokens(a) == head + WhitespaceTokens(a[1..]);
      ConcatAssoc(head, WhitespaceTokens(a[1..]), WhitespaceTokens(b));
    }
  }

  /** A single character is its own token when it matches `\s`, and
      yields nothing otherwise. */
  lemma WhitespaceTokensOfChar(c: char)
    ensures WhitespaceTokens([c]) == if IsSpace(c) then [[c]] else []
  {
  }

  /** The number of prefix tokens: the loop runs for 1 <= k < len(name) - 1. */
  function PrefixCount(name: string): nat
  {
    if |name| >= 2 then |name| - 2 else 0
  }

  /** The lower-cased prefixes `name[0:k]` for 1 <= k < len(name) - 1, shortest first. */
  function PrefixTokens(name: string): (tokens: seq<string>)
    ensures |tokens| == PrefixCount(name)
  {
    seq(PrefixCount(name), k requires 0 <= k < PrefixCount(name) => ToLower(name[..k + 1]))
  }

  /** The search tokens of a name: every whitespace character it contains,
      then the lower-cased prefixes of length 1 up to len(name) - 2. */
  function TokenizeSearchableTerm(name: string): (tokens: seq<string>)
    ensures |tokens| == SpaceCount(name) + PrefixCount(name)
    ensures forall k :: 1 <= k < |name| - 1 ==> ToLower(name[..k]) in tokens
  {
    var prefixes := PrefixTokens(name);
    assert forall k :: 1 <= k < |name| - 1 ==> prefixes[k - 1] == ToLower(name[..k]);
    WhitespaceTokens(name) + prefixes
  }

  /** Where each token sits: the whitespace matches come first, each a
      single whitespace character, and the prefix of length k sits at
      position (number of whitespace characters) + k - 1. Neither the whole
      name nor its prefix of length len(name) - 1 is a token. */
  lemma TokenizeLayout(name: string)
    ensures var tokens := TokenizeSearchableTerm(name);
      && tokens[..SpaceCount(name)] == WhitespaceTokens(name)
      && (forall i :: 0 <= i < SpaceCount(name) ==> |tokens[i]| == 1 && IsSpace(tokens[i][0]))
      && (forall k :: 1 <= k < |name| - 1 ==> tokens[SpaceCount(name) + k - 1] == ToLower(name[..k]))
      && (forall i :: SpaceCount(name) <= i < |tokens| ==> |tokens[i]| < |name| - 1)
  {
  }

  class LocalPayerStore {
    var cacheById: map<PayerId, PayerAccount>
    var cacheByName: map<string, PayerAccount>
    var cacheByTokens: map<string, seq<PayerAccount>>

    /** Each payer is filed under its own id and its own name, and every
        token list is empty: AddAccount appends to a copy of the list and
        never stores the copy back. */
    ghost predicate Valid()
      reads this
    {
      && (forall id :: id in cacheById ==> cacheById[id].id == id)
      && (forall name :: name in cacheByName ==> cacheByName[name].name == name)
      && (forall token :: token in cacheByTokens ==> cacheByTokens[token] == [])
    }

    constructor ()
      ensures Valid()
      ensures cacheById == map[] && cacheByName == map[] && cacheByTokens == map[]
    {
      cacheById := map[];
      cacheByName := map[];
      cacheByTokens := map[];
    }

    /** Files the payer under its id and its name, overwriting any payer
        already there, and gives each of its name tokens an entry. Never
        fails: a duplicate id is not reported. */
    method AddAccount(payer: PayerAccount) returns (err: Option<AccountExistsError>)
      requires Valid()
      modifies this
      ensures Valid()
      ensures err == None
      ensures cacheById == old(cacheById)[payer.id := payer]
      ensures cacheByName == old(cacheByName)[payer.name := payer]
      ensures cacheByTokens.Keys == old(cacheByTokens).Keys + (set token | token in TokenizeSearchableTerm(payer.name))
      ensures GetWithId(payer.id) == Some(payer) && GetWithName(payer.name) == Some(payer)
    {
      cacheById := cacheById[payer.id := payer];
      cacheByName := cacheByName[payer.name := payer];
      var nameTokens := TokenizeSearchableTerm(payer.name);
      IndexTokens(payer, nameTokens);
      err := None;
    }

    /** The token loop of AddAccount: each token gets an (empty) entry if it
        has none; the payer is appended to a local copy of the list only. */
    method IndexTokens(payer: PayerAccount, nameTokens: seq<string>)
      requires Valid()
      modifies this`cacheByTokens
      ensures Valid()
      ensures cacheByTokens.Keys == old(cacheByTokens).Keys + (set token | token in nameTokens)
    {
      ghost var seen: set<string> := {};
      for i := 0 to |nameTokens|
        invariant Valid()
        invariant cacheByTokens.Keys == old(cacheByTokens).Keys + seen
        invariant forall token :: token in seen ==> token in nameTokens
        invariant forall j :: 0 <= j < i ==> nameTokens[j] in seen
      {
        var nameToken := nameTokens[i];
        var cacheOfToken: seq<PayerAccount>;
        if nameToken in cacheByTokens {
          cacheOfToken := cacheByTokens[nameToken];
        } else {
          cacheOfToken := [];
          cacheByTokens := cacheByTokens[nameToken := cacheOfToken];
        }
        cacheOfToken := cacheOfToken + [payer];
        seen := seen + {nameToken};
      }
      assert seen == set token | token in nameTokens;
    }

    /** Every registered payer exactly once, in no particular order (Go
        ranges over the map in random order). */
    method ListAllAccounts() returns (allPayers: seq<PayerAccount>)
      requires Valid()
      ensures |allPayers| == |cacheById|
      ensures forall i :: 0 <= i < |allPayers| ==> allPayers[i].id in cacheById && cacheById[allPayers[i].id] == allPayers[i]
      ensures forall i, j :: 0 <= i < j < |allPayers| ==> allPayers[i].id != allPayers[j].id
      ensures forall id :: id in cacheById ==> cacheById[id] in allPayers
    {
      allPayers := [];
      var remaining := cacheById.Keys;
      while remaining != {}
        invariant remaining <= cacheById.Keys
        invariant |allPayers| + |remaining| == |cacheById|
        invariant forall i :: 0 <= i < |allPayers| ==> allPayers[i].id in cacheById - remaining && cacheById[allPayers[i].id] == allPayers[i]
        invariant forall i, j :: 0 <= i < j < |allPayers| ==> allPayers[i].id != allPayers[j].id
        invariant forall id :: id in cacheById && id !in remaining ==> cacheById[id] in allPayers
        decreases |remaining|
      {
        var id :| id in remaining;
        allPayers := allPayers + [cacheById[id]];
        remaining := remaining - {id};
      }
    }

    function GetWithId(id: PayerId): (payer: Option<PayerAccount>)
      reads this
      requires Valid()
      ensures payer.None? <==> id !in cacheById
      ensures payer.Some? ==> payer.value.id == id
    {
      if id in cacheById then Some(cacheById[id]) else None
    }

    function GetWithName(name: string): (payer: Option<PayerAccount>)
      reads this
      requires Valid()
      ensures payer.None? <==> name !in cacheByName
      ensures payer.Some? ==> payer.value.name == name
    {
      if name in cacheByName then Some(cacheByName[name]) else None
    }

    /** Returns the list filed under the first query token that has an
        entry, else an empty list; as every list is empty, the search never
        finds a payer. */
    method SearchWithNameQuery(query: string) returns (found: seq<PayerAccount>)
      requires Valid()
      ensures found == []
    {
      var queryTokens := TokenizeSearchableTerm(query);
      for i := 0 to |queryTokens| {
        var queryToken := queryTokens[i];
        if queryToken in cacheByTokens {
          return cacheByTokens[queryToken];
        }
      }
      return [];
    }
  }
}
