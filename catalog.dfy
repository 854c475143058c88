/** The fixed persona catalog and the lookups by model name. */
module Catalog {
  import opened Models

  /** A persona: display texts, the LLM model name that identifies it, and the per-minute
      price (an opaque real; the catalog value is overridden by a stored price when one is found). */
  datatype Assistant = Assistant(
    name: string,
    prompt: string,
    model: string,
    description: string,
    specialty: string,
    greeting: string,
    pricePerMinute: real)

  // Display texts of the catalog entries.
  const AnnaName: string := "Анна"
  const AnnaPrompt: string := "Ты \\— Анна, виртуальный помощник, ориентированный на поддержку и советы в повседневной жизни\\. Твоя цель \\— помогать пользователю разбирать задачи, давать рекомендации и задавать уточняющие вопросы, чтобы пользователь самостоятельно находил решения\\."
  const AnnaDescription: string := "Интерактивный помощник"
  const AnnaSpecialty: string := "Общение и поддержка в повседневных задачах"
  const AnnaGreeting: string := "Здравствуйте\\! Я Анна\\. Я помогу вам обсудить вопросы и получить полезные советы\\. Расскажите, что вас интересует?"
  const MaximName: string := "Максим"
  const MaximPrompt: string := "Ты \\— Максим, виртуальный наставник для саморазвития\\. Твоя цель \\— помогать пользователю в постановке целей, планировании и развитии навыков\\. Ты задаешь наводящие вопросы и даешь советы, не навязывая решений\\."
  const MaximDescription: string := "Наставник"
  const MaximSpecialty: string := "Помощь в саморазвитии и планировании"
  const MaximGreeting: string := "Привет\\! Я Максим\\. Я помогу вам планировать задачи, развивать навыки и лучше понимать себя\\. С чего начнем?"
  const SofiaName: string := "София"
  const SofiaPrompt: string := "Ты \\— София, виртуальный консультант для поддержки и мотивации\\. Твоя цель \\— создавать безопасное пространство для обсуждения идей и целей, помогать структурировать мысли и находить решения самостоятельно\\."
  const SofiaDescription: string := "консультант"
  const SofiaSpecialty: string := "Поддержка и мотивация"
  const SofiaGreeting: string := "Добрый день\\! Я София\\. Готова помочь обсудить идеи, задачи или получить мотивацию для новых целей\\."
  const AlexeiName: string := "Алексей"
  const AlexeiPrompt: string := "Ты \\— Алексей, виртуальный коуч по постановке целей и повышению продуктивности\\. Твоя цель \\— помогать пользователю выявлять задачи, строить планы и находить пути достижения целей\\. Ты даешь советы и задаешь уточняющие вопросы, чтобы пользователь сам находил оптимальные решения\\."
  const AlexeiDescription: string := "Коуч"
  const AlexeiSpecialty: string := "Целеполагание и продуктивность"
  const AlexeiGreeting: string := "Здравствуйте\\! Я Алексей\\. Я помогу вам определить цели и разработать план действий\\. С чего начнем?"

  /** The four catalog entries, in order; the first is the fallback persona. */
  function GetAllAssistants(): (catalog: seq<Assistant>)
    ensures |catalog| == 4
    ensures catalog[0].model == "GigaChat-2-Max" && catalog[0].name == "Анна"
  {
    [
      Assistant(AnnaName, AnnaPrompt, "GigaChat-2-Max", AnnaDescription, AnnaSpecialty, AnnaGreeting, 0.1),
      Assistant(MaximName, MaximPrompt, "GigaChat-2-Pro", MaximDescription, MaximSpecialty, MaximGreeting, 0.09),
      Assistant(SofiaName, SofiaPrompt, "deepseek-chat", SofiaDescription, SofiaSpecialty, SofiaGreeting, 0.08),
      Assistant(AlexeiName, AlexeiPrompt, "GigaChat-2", AlexeiDescription, AlexeiSpecialty, AlexeiGreeting, 0.07)
    ]
  }

  /** The first entry of `list` whose model equals `model` exactly (iterator `find`). */
  function FindIn(list: seq<Assistant>, model: string): (r: Option<Assistant>)
    ensures r.None? <==> forall i :: 0 <= i < |list| ==> list[i].model != model
    ensures r.Some? ==> exists i :: 0 <= i < |list| && list[i] == r.value && r.value.model == model &&
                                    forall j :: 0 <= j < i ==> list[j].model != model
  {
    if |list| == 0 then None
    else if list[0].model == model then Some(list[0])
    else
      var r := FindIn(list[1..], model);
      assert forall i :: 1 <= i < |list| ==> list[i] == list[1..][i - 1];
      r
  }

  /** `find_by_model`: the first catalog entry with exactly this model name, case-sensitive. */
  function FindByModel(model: string): (r: Option<Assistant>)
    ensures r.None? <==> forall i :: 0 <= i < 4 ==> GetAllAssistants()[i].model != model
    ensures r.Some? ==> r.value.model == model && r.value in GetAllAssistants()
  {
    FindIn(GetAllAssistants(), model)
  }

  /** The price override of `find_by_model_with_price`: a found entry takes the stored price
      when the price lookup (`storedPrice`, None on a lookup error) succeeds; every other field
      is kept. */
  function WithPrice(found: Option<Assistant>, storedPrice: Option<real>): (r: Option<Assistant>)
    ensures r.None? <==> found.None?
    ensures r.Some? ==> r.value.(pricePerMinute := found.value.pricePerMinute) == found.value
    ensures r.Some? ==> r.value.pricePerMinute == storedPrice.GetOr(found.value.pricePerMinute)
  {
    match found
    case None => None
    case Some(a) => Some(if storedPrice.Some? then a.(pricePerMinute := storedPrice.value) else a)
  }

  /** `find_by_model_with_price`: the catalog entry with its price overridden. */
  function FindByModelWithPrice(model: string, storedPrice: Option<real>): (r: Option<Assistant>)
    ensures r.None? <==> FindByModel(model).None?
    ensures r.Some? ==> r.value.model == model && r.value.prompt == FindByModel(model).value.prompt
    ensures r.Some? ==> r.value.(pricePerMinute := FindByModel(model).value.pricePerMinute) == FindByModel(model).value
    ensures r.Some? ==> r.value.pricePerMinute == storedPrice.GetOr(FindByModel(model).value.pricePerMinute)
  {
    WithPrice(FindByModel(model), storedPrice)
  }

  /** `find_by_model(m).unwrap_or_else(|| get_all_assistants()[0])` over a persona list: the
      first entry with this model name, else the list's first entry. */
  function Resolve(list: seq<Assistant>, model: string): (a: Assistant)
    requires |list| > 0
    ensures a in list
    ensures (exists i :: 0 <= i < |list| && list[i].model == model) ==> a.model == model
    ensures (forall i :: 0 <= i < |list| ==> list[i].model != model) ==> a == list[0]
  {
    FindIn(list, model).GetOr(list[0])
  }

  /** The same over the bot's catalog. */
  function ResolveAssistant(model: string): (a: Assistant)
    ensures a in GetAllAssistants()
    ensures a.model == model || (a == GetAllAssistants()[0] && FindByModel(model).None?)
  {
    Resolve(GetAllAssistants(), model)
  }

  /** The catalog's model names are pairwise distinct. */
  lemma CatalogModelsDistinct()
    ensures forall i, j :: 0 <= i < j < 4 ==> GetAllAssistants()[i].model != GetAllAssistants()[j].model
  {
    var c := GetAllAssistants();
    assert c[0].model[11] == 'M' && c[1].model[11] == 'P';
    assert |c[3].model| == 10 && |c[0].model| == 14 && |c[1].model| == 14 && |c[2].model| == 13;
  }

  /** In a list whose model names are pairwise distinct, each entry is what its own model
      name finds. */
  lemma {:induction false} FindInDistinct(list: seq<Assistant>, i: nat)
    requires i < |list|
    requires forall j, k :: 0 <= j < k < |list| ==> list[j].model != list[k].model
    ensures FindIn(list, list[i].model) == Some(list[i])
    decreases i
  {
    if i > 0 {
      assert list[0].model != list[i].model;
      assert forall j, k :: 0 <= j < k < |list[1..]| ==> list[1..][j].model != list[1..][k].model by {
        forall j, k | 0 <= j < k < |list[1..]| ensures list[1..][j].model != list[1..][k].model {
          assert list[1..][j] == list[j + 1] && list[1..][k] == list[k + 1];
        }
      }
      FindInDistinct(list[1..], i - 1);
      assert list[1..][i - 1] == list[i];
    }
  }

  /** Each catalog entry is what its own model name finds. */
  lemma CatalogEntriesFindThemselves()
    ensures forall i :: 0 <= i < 4 ==> FindByModel(GetAllAssistants()[i].model) == Some(GetAllAssistants()[i])
  {
    CatalogModelsDistinct();
    forall i | 0 <= i < 4 ensures FindByModel(GetAllAssistants()[i].model) == Some(GetAllAssistants()[i]) {
      FindInDistinct(GetAllAssistants(), i);
    }
  }

  /** A model name outside the catalog resolves to the first entry, "GigaChat-2-Max". */
  lemma UnknownModelFallsBack(model: string)
    requires forall i :: 0 <= i < 4 ==> GetAllAssistants()[i].model != model
    ensures ResolveAssistant(model) == GetAllAssistants()[0]
    ensures ResolveAssistant(model).model == "GigaChat-2-Max"
  {
  }
}
