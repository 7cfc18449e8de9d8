/** Currency lookups over the names and codes the rate tables publish. The tables
    themselves come from the network; here they are parameters: `names` and `codes`
    are the current table A entries followed by table B's, in publication order. */
module Currencies {
  import opened Wrappers

  /** Python's str.upper on the letters a-z; other characters are kept. */
  function UpperChar(c: char): char {
    if 'a' <= c <= 'z' then (c as int - 32) as char else c
  }

  function Upper(s: string): (r: string)
    ensures |r| == |s| && forall i :: 0 <= i < |s| ==> r[i] == UpperChar(s[i])
  {
    if s == [] then [] else [UpperChar(s[0])] + Upper(s[1..])
  }

  /** The argument normalisation of the command line: `argument.find('_')` is 0 only for
      an argument that starts with '_', which is kept; every other argument has each '_'
      replaced by ' ' (split on '_' and joined with ' '). */
  function NormaliseArgument(argument: string): (r: string)
    ensures |argument| > 0 && argument[0] == '_' ==> r == argument
    ensures !(|argument| > 0 && argument[0] == '_') ==>
              |r| == |argument| && '_' !in r &&
              forall i :: 0 <= i < |argument| ==> r[i] == (if argument[i] == '_' then ' ' else argument[i])
  {
    if |argument| > 0 && argument[0] == '_' then argument else UnderscoresToSpaces(argument)
  }

  function UnderscoresToSpaces(s: string): (r: string)
    ensures |r| == |s| && '_' !in r
    ensures forall i :: 0 <= i < |s| ==> r[i] == (if s[i] == '_' then ' ' else s[i])
  {
    if s == [] then [] else [if s[0] == '_' then ' ' else s[0]] + UnderscoresToSpaces(s[1..])
  }

  /** Where the search loop of getCurrencyCode and getCurrencyName stops: the first
      index holding x, or |s| when there is none. */
  function IndexOf(s: seq<string>, x: string): (i: nat)
    ensures i <= |s|
    ensures i < |s| ==> s[i] == x
    ensures forall j :: 0 <= j < i ==> s[j] != x
    ensures i == |s| <==> x !in s
  {
    if s == [] then 0 else if s[0] == x then 0 else 1 + IndexOf(s[1..], x)
  }

  /** The code at the index where name is found among the names; None stands for the
      IndexError of `currencyCodesList[idx]` when idx is past the codes. */
  function CurrencyCodeOf(currName: string, names: seq<string>, codes: seq<string>): Option<string> {
    var idx := IndexOf(names, currName);
    if idx < |codes| then Some(codes[idx]) else None
  }

  /** The name at the index where the upper-cased code is found among the codes. */
  function CurrencyNameOf(currCode: string, names: seq<string>, codes: seq<string>): Option<string> {
    var idx := IndexOf(codes, Upper(currCode));
    if idx < |names| then Some(names[idx]) else None
  }

  /** getCurrencyCode: the idx counter stops at the first matching name. */
  method GetCurrencyCode(currName: string, names: seq<string>, codes: seq<string>)
    returns (code: Option<string>)
    ensures code == CurrencyCodeOf(currName, names, codes)
    ensures currName in names && |names| == |codes| ==>
              exists i :: 0 <= i < |names| && names[i] == currName && code == Some(codes[i])
  {
    var idx := 0;
    while idx < |names| && names[idx] != currName
      invariant 0 <= idx <= |names|
      invariant forall j :: 0 <= j < idx ==> names[j] != currName
    {
      idx := idx + 1;
    }
    code := if idx < |codes| then Some(codes[idx]) else None;
  }

  /** getCurrencyName: the code is upper-cased, then searched like a name. */
  method GetCurrencyName(currCode: string, names: seq<string>, codes: seq<string>)
    returns (name: Option<string>)
    ensures name == CurrencyNameOf(currCode, names, codes)
    ensures Upper(currCode) in codes && |names| == |codes| ==>
              exists i :: 0 <= i < |codes| && codes[i] == Upper(currCode) && name == Some(names[i])
  {
    var code := Upper(currCode);
    var idx := 0;
    while idx < |codes| && codes[idx] != code
      invariant 0 <= idx <= |codes|
      invariant forall j :: 0 <= j < idx ==> codes[j] != code
    {
      idx := idx + 1;
    }
    name := if idx < |names| then Some(names[idx]) else None;
  }

  predicate Distinct(s: seq<string>) {
    forall i, j :: 0 <= i < j < |s| ==> s[i] != s[j]
  }

  predicate AllUpper(s: seq<string>) {
    forall i :: 0 <= i < |s| ==> Upper(s[i]) == s[i]
  }

  /** A listed name leads back to itself through its code, when the tables are
      parallel, the codes are distinct and already upper case. */
  lemma NameCodeRoundTrip(currName: string, names: seq<string>, codes: seq<string>)
    requires |names| == |codes| && Distinct(codes) && AllUpper(codes)
    requires currName in names
    ensures CurrencyCodeOf(currName, names, codes).Some?
    ensures CurrencyNameOf(CurrencyCodeOf(currName, names, codes).value, names, codes) == Some(currName)
  {
    var i := IndexOf(names, currName);
    var code := codes[i];
    assert Upper(code) == code;
    var k := IndexOf(codes, code);
    assert k == i;
  }

  /** A listed code, in any letter case, leads back to its upper-case form through
      its name, when the tables are parallel and the names are distinct. */
  lemma CodeNameRoundTrip(currCode: string, names: seq<string>, codes: seq<string>)
    requires |names| == |codes| && Distinct(names)
    requires Upper(currCode) in codes
    ensures CurrencyNameOf(currCode, names, codes).Some?
    ensures CurrencyCodeOf(CurrencyNameOf(currCode, names, codes).value, names, codes) == Some(Upper(currCode))
  {
    var i := IndexOf(codes, Upper(currCode));
    var k := IndexOf(names, names[i]);
    assert k == i;
  }

  /** checkArgumentByName: the scan over the published names, returning at the first
      match. */
  method CheckArgumentByName(argument: string, names: seq<string>) returns (found: bool)
    ensures found <==> argument in names
  {
    for i := 0 to |names|
      invariant argument !in names[..i]
    {
      if argument == names[i] {
        return true;
      }
    }
    assert names[..|names|] == names;
    return false;
  }

  /** checkArgumentByCode: the same scan over the published codes. */
  method CheckArgumentByCode(argument: string, codes: seq<string>) returns (found: bool)
    ensures found <==> argument in codes
  {
    for i := 0 to |codes|
      invariant argument !in codes[..i]
    {
      if argument == codes[i] {
        return true;
      }
    }
    assert codes[..|codes|] == codes;
    return false;
  }

  /** On parallel tables the command-line checks agree with the later lookups: a name
      passes checkArgumentByName exactly when getCurrencyCode finds its code, and an
      upper-cased code passes checkArgumentByCode exactly when getCurrencyName finds
      its name. */
  lemma ChecksAgreeWithLookups(argument: string, names: seq<string>, codes: seq<string>)
    requires |names| == |codes|
    ensures argument in names <==> CurrencyCodeOf(argument, names, codes).Some?
    ensures Upper(argument) in codes <==> CurrencyNameOf(argument, names, codes).Some?
  {
  }

  /** checkTableType: 'a' when the currency is named, or coded, in table A, and 'b'
      otherwise; the table A lists are parameters. */
  method CheckTableType(currName: string, tableANames: seq<string>, tableACodes: seq<string>)
    returns (letter: string)
    ensures letter == "a" <==> currName in tableANames || currName in tableACodes
    ensures letter == "a" || letter == "b"
    ensures letter == TableTypeOf(currName, tableANames, tableACodes)
  {
    letter := "b";
    for i := 0 to |tableANames|
      invariant letter == "a" || letter == "b"
      invariant letter == "a" <==> currName in tableANames[..i]
    {
      if currName == tableANames[i] {
        letter := "a";
      }
    }
    assert tableANames[..|tableANames|] == tableANames;
    for i := 0 to |tableACodes|
      invariant letter == "a" || letter == "b"
      invariant letter == "a" <==> currName in tableANames || currName in tableACodes[..i]
    {
      if currName == tableACodes[i] {
        letter := "a";
      }
    }
    assert tableACodes[..|tableACodes|] == tableACodes;
  }

  /** The table letter checkTableType computes. */
  function TableTypeOf(currName: string, tableANames: seq<string>, tableACodes: seq<string>): string {
    if currName in tableANames || currName in tableACodes then "a" else "b"
  }
}
