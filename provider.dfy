/** Choosing the LLM provider from a model name. */
module Provider {
  import opened Text
  import Catalog

  /** Lower-casing of one character: ASCII capitals, and the Kelvin sign, whose lower case is
      the ASCII 'k'. Other characters are kept as they are. */
  function LowerChar(c: char): char
  {
    if 'A' <= c <= 'Z' then (c as int + 32) as char
    else if c == 'K' then 'k'
    else c
  }

  /** `to_lowercase`, character by character. */
  function ToLower(s: string): (r: string)
    ensures |r| == |s|
    ensures forall i :: 0 <= i < |s| ==> r[i] == LowerChar(s[i])
  {
    seq(|s|, i requires 0 <= i < |s| => LowerChar(s[i]))
  }

  /** `get_provider_from_model`: "gigachat" when the lower-cased name contains "gigachat",
      otherwise "deepseek" when it contains "deepseek", otherwise "unknown". */
  function GetProviderFromModel(model: string): (provider: string)
    ensures provider in {"gigachat", "deepseek", "unknown"}
    ensures provider == "gigachat" <==> Contains(ToLower(model), "gigachat")
    ensures provider == "deepseek" <==> !Contains(ToLower(model), "gigachat") && Contains(ToLower(model), "deepseek")
    ensures provider == "unknown" <==> !Contains(ToLower(model), "gigachat") && !Contains(ToLower(model), "deepseek")
  {
    var lower := ToLower(model);
    if Contains(lower, "gigachat") then "gigachat"
    else if Contains(lower, "deepseek") then "deepseek"
    else "unknown"
  }

  /** Lower-casing twice is lower-casing once. */
  lemma LowerIdempotent(s: string)
    ensures ToLower(ToLower(s)) == ToLower(s)
  {
    forall i | 0 <= i < |s| ensures LowerChar(LowerChar(s[i])) == LowerChar(s[i]) {
      var c := s[i];
      if 'A' <= c <= 'Z' {
        assert 'a' <= LowerChar(c) <= 'z';
      }
    }
  }

  /** The choice ignores letter case: a name and its lower-cased form, or two names with the
      same lower-cased form, get the same provider. */
  lemma CaseInsensitive(a: string, b: string)
    requires ToLower(a) == ToLower(b)
    ensures GetProviderFromModel(a) == GetProviderFromModel(b)
    ensures GetProviderFromModel(ToLower(a)) == GetProviderFromModel(a)
  {
    LowerIdempotent(a);
  }

  /** A name mentioning both providers is routed to "gigachat". */
  lemma GigachatTakesPrecedence(model: string)
    requires Contains(ToLower(model), "gigachat") && Contains(ToLower(model), "deepseek")
    ensures GetProviderFromModel(model) == "gigachat"
  {
  }

  /** A name whose lower-cased form starts with "gigachat" goes to "gigachat". */
  lemma GigachatPrefix(model: string)
    requires |ToLower(model)| >= 8 && ToLower(model)[..8] == "gigachat"
    ensures GetProviderFromModel(model) == "gigachat"
  {
    ContainsAt(ToLower(model), "gigachat", 0);
  }

  /** A name whose lower-cased form starts with "deepseek" and has no 'g' goes to "deepseek". */
  lemma DeepseekPrefix(model: string)
    requires |ToLower(model)| >= 8 && ToLower(model)[..8] == "deepseek"
    requires forall i :: 0 <= i < |ToLower(model)| ==> ToLower(model)[i] != 'g'
    ensures GetProviderFromModel(model) == "deepseek"
  {
    ContainsAt(ToLower(model), "deepseek", 0);
    NoGigachat(ToLower(model));
  }

  /** The catalog's four model names: the three GigaChat ones go to "gigachat", the DeepSeek
      one to "deepseek". */
  lemma ModelProviders()
    ensures GetProviderFromModel("GigaChat-2-Max") == "gigachat"
    ensures GetProviderFromModel("GigaChat-2-Pro") == "gigachat"
    ensures GetProviderFromModel("GigaChat-2") == "gigachat"
    ensures GetProviderFromModel("deepseek-chat") == "deepseek"
  {
    assert ToLower("GigaChat-2-Max")[..8] == "gigachat";
    GigachatPrefix("GigaChat-2-Max");
    assert ToLower("GigaChat-2-Pro")[..8] == "gigachat";
    GigachatPrefix("GigaChat-2-Pro");
    assert ToLower("GigaChat-2")[..8] == "gigachat";
    GigachatPrefix("GigaChat-2");
    assert ToLower("deepseek-chat")[..8] == "deepseek";
    DeepseekPrefix("deepseek-chat");
  }

  /** The catalog's three GigaChat personas go to "gigachat" and the DeepSeek one to "deepseek". */
  lemma CatalogProviders()
    ensures GetProviderFromModel(Catalog.GetAllAssistants()[0].model) == "gigachat"
    ensures GetProviderFromModel(Catalog.GetAllAssistants()[1].model) == "gigachat"
    ensures GetProviderFromModel(Catalog.GetAllAssistants()[2].model) == "deepseek"
    ensures GetProviderFromModel(Catalog.GetAllAssistants()[3].model) == "gigachat"
  {
    ModelProviders();
  }

  /** A text without a 'g' does not contain "gigachat". */
  lemma {:induction false} NoGigachat(s: string)
    requires forall i :: 0 <= i < |s| ==> s[i] != 'g'
    ensures !Contains(s, "gigachat")
  {
    if |s| > 0 {
      NoGigachat(s[1..]);
      if |s| >= 8 {
        assert s[..8][0] != "gigachat"[0];
      }
    }
  }
}
