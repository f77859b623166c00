/**
 * The provider data types both drafts declare (provider_view.rs and main.rs each define the
 * same three), the fixed list of provider types, and the generated names `Provider<N>`.
 */
module Providers {
  import opened Wrappers
  import Decimal

  datatype ProviderType = OpenAI | Ollama | AzureOpenAI | Gemini | Grog | Claude

  datatype ProviderInstance = ProviderInstance(name: string, providerType: ProviderType)

  datatype ProviderSettings = ProviderSettings(
    apiKey: Option<string>,
    apiEntryPoint: Option<string>,
    apiDeployment: Option<string>)

  /** `get_provider_type_names`: the six type names in list order. */
  function TypeNames(): seq<string>
  {
    ["OpenAI", "Ollama", "AzureOpenAI", "Gemini", "Grog", "Claude"]
  }

  /** The string match of the type-selection step: a listed name gives its type, anything else None. */
  function TypeFromName(name: string): (r: Option<ProviderType>)
    ensures r.Some? <==> name in TypeNames()
  {
    if name == "OpenAI" then Some(OpenAI)
    else if name == "Ollama" then Some(Ollama)
    else if name == "AzureOpenAI" then Some(AzureOpenAI)
    else if name == "Gemini" then Some(Gemini)
    else if name == "Grog" then Some(Grog)
    else if name == "Claude" then Some(Claude)
    else None
  }

  /** The index match of the earlier draft: cursor 0..5 picks a type, anything else falls back to OpenAI. */
  function TypeAtIndex(i: nat): ProviderType
  {
    match i
    case 0 => OpenAI
    case 1 => Ollama
    case 2 => AzureOpenAI
    case 3 => Gemini
    case 4 => Grog
    case 5 => Claude
    case _ => OpenAI
  }

  /** The `{:?}` rendering of a type: its variant name. */
  function DebugName(t: ProviderType): (r: string)
    ensures TypeFromName(r) == Some(t)
  {
    match t
    case OpenAI => "OpenAI"
    case Ollama => "Ollama"
    case AzureOpenAI => "AzureOpenAI"
    case Gemini => "Gemini"
    case Grog => "Grog"
    case Claude => "Claude"
  }

  /** Both drafts agree: the name at list position i decodes to the type the index match gives for i. */
  lemma TypeNamesAgree(i: nat)
    requires i < |TypeNames()|
    ensures TypeFromName(TypeNames()[i]) == Some(TypeAtIndex(i))
    ensures DebugName(TypeAtIndex(i)) == TypeNames()[i]
  {
  }

  /** `format!("Provider{}", n)`. */
  function ProviderName(n: nat): string
  {
    "Provider" + Decimal.NatToString(n)
  }

  lemma ProviderNameInjective(m: nat, n: nat)
    requires ProviderName(m) == ProviderName(n)
    ensures m == n
  {
    var prefix := "Provider";
    assert ProviderName(m)[|prefix|..] == Decimal.NatToString(m);
    assert ProviderName(n)[|prefix|..] == Decimal.NatToString(n);
    Decimal.NatToStringInjective(m, n);
  }

  /** The names Provider1 .. ProviderN. */
  function GeneratedNames(n: nat): set<string>
  {
    if n == 0 then {} else GeneratedNames(n - 1) + {ProviderName(n)}
  }

  /** The generated names are exactly those whose number is between 1 and n. */
  lemma {:induction false} GeneratedNamesMembers(n: nat, m: nat)
    ensures ProviderName(m) in GeneratedNames(n) <==> 1 <= m <= n
  {
    if n > 0 {
      GeneratedNamesMembers(n - 1, m);
      if ProviderName(m) == ProviderName(n) {
        ProviderNameInjective(m, n);
      }
    }
  }

  /** The next generated name is never already taken. */
  lemma FreshGeneratedName(n: nat)
    ensures ProviderName(n + 1) !in GeneratedNames(n)
  {
    GeneratedNamesMembers(n, n + 1);
  }

  /** Provider1 .. ProviderN are N distinct names. */
  lemma {:induction false} GeneratedNamesCount(n: nat)
    ensures |GeneratedNames(n)| == n
  {
    if n > 0 {
      GeneratedNamesCount(n - 1);
      FreshGeneratedName(n - 1);
    }
  }

  /** A duplicate-free listing of exactly the given keys: the order a `HashMap` yields them in. */
  predicate IsEnumeration(names: seq<string>, keys: set<string>)
  {
    && (forall i, j :: 0 <= i < j < |names| ==> names[i] != names[j])
    && (forall i :: 0 <= i < |names| ==> names[i] in keys)
    && (forall x :: x in keys ==> x in names)
  }

  lemma {:induction false} EnumerationLength(names: seq<string>, keys: set<string>)
    requires IsEnumeration(names, keys)
    ensures |names| == |keys|
    decreases |names|
  {
    if names == [] {
      assert keys == {};
    } else {
      var last := names[|names| - 1];
      var init := names[..|names| - 1];
      assert forall i :: 0 <= i < |init| ==> init[i] == names[i] != last;
      assert forall x :: x in init <==> x in keys - {last} by {
        forall x ensures x in init <==> x in keys - {last} {
          assert x in names <==> x in init || x == last by {
            assert names == init + [last];
          }
        }
      }
      EnumerationLength(init, keys - {last});
    }
  }
}
