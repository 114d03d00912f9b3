/**
  The tool registry handed to the agent and the one tool whose logic lives
  in the registry's own file: the weather-based clothing recommendation.
  The data-store operations the registry points at (orders, products,
  customers, loyalty points) and the HTTP weather lookup are named by
  `Target` only; their behaviour is not part of this model.
 */
module Tools {
  import opened Wrappers
  import opened Text

  /** The operation a registry entry delegates to. */
  datatype Target =
    | GetOrder
    | UpdateOrder
    | SearchProducts
    | GetProduct
    | GetCustomer
    | UpdateCustomerPreferences
    | GetLoyaltyPoints
    | GetWeather
    | WeatherBasedRecommendation

  /**
    One registry entry: the tool's name, the operation it delegates to, the
    arguments its adapter fixes after the caller's input, and the
    description shown to the language model.
   */
  datatype Tool = Tool(name: string, target: Target, fixedArgs: seq<string>, description: string)

  /** A call of a target operation with its full argument list. */
  datatype Invocation = Invocation(target: Target, args: seq<string>)

  /** The registry, in the order the agent advertises and counts the tools. */
  const Registry: seq<Tool> := [
    Tool("CheckOrderStatus", GetOrder, [], "Check the status of an order by order ID."),
    Tool("CancelOrder", UpdateOrder, ["canceled"], "Cancel an order by order ID if it is pending."),
    Tool("ProcessReturn", UpdateOrder, ["returned"], "Process a return for an order by order ID if eligible."),
    Tool("SearchProducts", SearchProducts, [], "Search products by name or category."),
    Tool("GetProductDetails", GetProduct, [], "Get details of a product by product ID."),
    Tool("RecommendProducts", SearchProducts, [], "Recommend products based on a category."),
    Tool("GetCustomerInfo", GetCustomer, [], "Retrieve customer information by customer ID."),
    Tool("UpdateCustomerPreferences", UpdateCustomerPreferences, [], "Update customer preferences by customer ID and preference."),
    Tool("CheckLoyaltyPoints", GetLoyaltyPoints, [], "Check loyalty points for a customer by customer ID."),
    Tool("GetWeather", GetWeather, [], "Get current weather for a city."),
    Tool("WeatherBasedRecommendation", WeatherBasedRecommendation, [], "Recommend clothing based on weather conditions.")
  ]

  /** The registered names, in registry order. */
  function ToolNames(): (names: seq<string>)
    ensures |names| == |Registry|
    ensures forall i :: 0 <= i < |Registry| ==> names[i] == Registry[i].name
  {
    seq(|Registry|, i requires 0 <= i < |Registry| => Registry[i].name)
  }

  /** No two entries of `tools` share a name. */
  predicate UniqueNames(tools: seq<Tool>) {
    forall i, j :: 0 <= i < j < |tools| ==> tools[i].name != tools[j].name
  }

  /** The length of each registered name, in registry order. */
  lemma NameLengths()
    ensures forall i :: 0 <= i < |Registry| ==>
      |Registry[i].name| == [16, 11, 13, 14, 17, 17, 15, 25, 18, 10, 26][i]
  {
  }

  /** The registry holds eleven tools, no two with the same name. */
  lemma RegistryShape()
    ensures |Registry| == 11
    ensures UniqueNames(Registry)
  {
    NameLengths();
    assert Registry[4].name[0] != Registry[5].name[0];
  }

  /** A sequence without repeated elements has as many distinct elements as it is long. */
  lemma {:induction false} DistinctCount(names: seq<string>)
    requires forall i, j :: 0 <= i < j < |names| ==> names[i] != names[j]
    ensures |set n | n in names| == |names|
  {
    if names != [] {
      var rest := names[1..];
      DistinctCount(rest);
      assert (set n | n in names) == (set n | n in rest) + {names[0]};
      assert names[0] !in rest;
    }
  }

  /** One registered name per tool: the name set has eleven elements. */
  lemma NameSetSize()
    ensures |set n | n in ToolNames()| == 11
  {
    RegistryShape();
    DistinctCount(ToolNames());
  }

  /** The first registry entry with the given name, as a by-name tool lookup does. */
  function FindFrom(tools: seq<Tool>, name: string): (r: Option<Tool>)
    ensures r.Some? ==> r.value in tools && r.value.name == name
    ensures r.None? ==> forall t :: t in tools ==> t.name != name
  {
    if tools == [] then None
    else if tools[0].name == name then Some(tools[0])
    else FindFrom(tools[1..], name)
  }

  /** The registry entry for a tool name, if any. */
  function Lookup(name: string): Option<Tool> {
    FindFrom(Registry, name)
  }

  /** Running a tool on the model's single input: the adapter appends its fixed arguments. */
  function Resolve(tool: Tool, input: string): (call: Invocation)
    ensures call.target == tool.target
    ensures call.args == [input] + tool.fixedArgs
  {
    Invocation(tool.target, [input] + tool.fixedArgs)
  }

  /** The search returns the first entry bearing the name. */
  lemma {:induction false} FindFromAt(tools: seq<Tool>, name: string, k: nat)
    requires k < |tools| && tools[k].name == name
    requires forall j :: 0 <= j < k ==> tools[j].name != name
    ensures FindFrom(tools, name) == Some(tools[k])
  {
    if k > 0 {
      FindFromAt(tools[1..], name, k - 1);
    }
  }

  /** A registered name resolves to the entry bearing it. */
  lemma LookupRegistered(name: string, k: nat)
    requires k < |Registry| && Registry[k].name == name
    ensures Lookup(name) == Some(Registry[k])
  {
    RegistryShape();
    FindFromAt(Registry, name, k);
  }

  /** The lookup finds a tool exactly for the registered names. */
  lemma LookupFindsRegistered(name: string)
    ensures Lookup(name).Some? <==> name in ToolNames()
  {
    var names := ToolNames();
    if name in names {
      var i :| 0 <= i < |names| && names[i] == name;
      assert Registry[i] in Registry;
    }
  }

  /** Cancelling updates the given order to the fixed status "canceled". */
  lemma CancelOrderAdapter(orderId: string)
    ensures Lookup("CancelOrder").Some?
    ensures Resolve(Lookup("CancelOrder").value, orderId) == Invocation(UpdateOrder, [orderId, "canceled"])
  {
    LookupRegistered("CancelOrder", 1);
  }

  /** Processing a return updates the given order to the fixed status "returned". */
  lemma ProcessReturnAdapter(orderId: string)
    ensures Lookup("ProcessReturn").Some?
    ensures Resolve(Lookup("ProcessReturn").value, orderId) == Invocation(UpdateOrder, [orderId, "returned"])
  {
    LookupRegistered("ProcessReturn", 2);
  }

  /** Recommending products is searching products with the category as the query. */
  lemma RecommendIsSearch(category: string)
    ensures Lookup("RecommendProducts").Some? && Lookup("SearchProducts").Some?
    ensures Resolve(Lookup("RecommendProducts").value, category)
         == Resolve(Lookup("SearchProducts").value, category)
    ensures Resolve(Lookup("RecommendProducts").value, category) == Invocation(SearchProducts, [category])
  {
    LookupRegistered("SearchProducts", 3);
    LookupRegistered("RecommendProducts", 5);
  }

  // The five fixed answers of the clothing recommendation.
  const RainAdvice: string :=
    "I recommend wearing waterproof clothing like a raincoat and quick-dry pants. Don\U{2019}t forget an umbrella! \U{2614}"
  const CloudyAdvice: string :=
    "Wear lightweight, breathable clothes like a cotton t-shirt and shorts. A light jacket might be handy in case of rain. \U{1F60A}"
  const SunnyAdvice: string :=
    "Go for light, airy clothes like a linen shirt and shorts. Sunglasses and sunscreen are a must! \U{2600}\U{FE0F}"
  const ClearAdvice: string :=
    "Opt for comfortable, breathable clothing like a cotton dress or t-shirt with shorts. Stay hydrated! \U{1F60E}"
  const DefaultAdvice: string :=
    "I suggest lightweight and comfortable clothes, like a cotton t-shirt and pants, suitable for most weather conditions. \U{1F60A}"

  /** A keyword classifier over the lower-cased condition, checked in priority order. */
  function WeatherRecommendation(condition: string): (advice: string)
    ensures advice in {RainAdvice, CloudyAdvice, SunnyAdvice, ClearAdvice, DefaultAdvice}
  {
    var c := Lower(condition);
    if Contains(c, "rain") || Contains(c, "drizzle") then RainAdvice
    else if Contains(c, "cloudy") then CloudyAdvice
    else if Contains(c, "sunny") then SunnyAdvice
    else if Contains(c, "clear") then ClearAdvice
    else DefaultAdvice
  }

  /** The recommendation does not depend on letter case. */
  lemma WeatherIgnoresCase(condition: string)
    ensures WeatherRecommendation(Lower(condition)) == WeatherRecommendation(condition)
    ensures WeatherRecommendation(Upper(condition)) == WeatherRecommendation(condition)
  {
    LowerIdempotent(condition);
    LowerOfUpper(condition);
  }

  /**
    Each answer is given exactly for the inputs its rule selects: rain or
    drizzle wins over every other keyword, then cloudy, sunny and clear.
   */
  lemma WeatherClassification(condition: string)
    ensures var c := Lower(condition);
      && (WeatherRecommendation(condition) == RainAdvice
          <==> Contains(c, "rain") || Contains(c, "drizzle"))
      && (WeatherRecommendation(condition) == CloudyAdvice
          <==> !Contains(c, "rain") && !Contains(c, "drizzle") && Contains(c, "cloudy"))
      && (WeatherRecommendation(condition) == SunnyAdvice
          <==> !Contains(c, "rain") && !Contains(c, "drizzle") && !Contains(c, "cloudy")
               && Contains(c, "sunny"))
      && (WeatherRecommendation(condition) == ClearAdvice
          <==> !Contains(c, "rain") && !Contains(c, "drizzle") && !Contains(c, "cloudy")
               && !Contains(c, "sunny") && Contains(c, "clear"))
      && (WeatherRecommendation(condition) == DefaultAdvice
          <==> !Contains(c, "rain") && !Contains(c, "drizzle") && !Contains(c, "cloudy")
               && !Contains(c, "sunny") && !Contains(c, "clear"))
  {
    assert RainAdvice != CloudyAdvice && RainAdvice != SunnyAdvice && RainAdvice != ClearAdvice;
    assert RainAdvice != DefaultAdvice && CloudyAdvice != SunnyAdvice && CloudyAdvice != ClearAdvice;
    assert CloudyAdvice != DefaultAdvice && SunnyAdvice != ClearAdvice && SunnyAdvice != DefaultAdvice;
    assert ClearAdvice != DefaultAdvice;
  }

  /** Rain wins whatever else the condition mentions, in any letter case. */
  lemma RainHasPriority(condition: string, extra: string)
    requires Contains(Lower(condition), "rain") || Contains(Lower(condition), "drizzle")
    ensures WeatherRecommendation(condition + extra) == RainAdvice
    ensures WeatherRecommendation(extra + condition) == RainAdvice
  {
    assert Lower(condition + extra) == Lower(condition) + Lower(extra);
    assert Lower(extra + condition) == Lower(extra) + Lower(condition);
    if Contains(Lower(condition), "rain") {
      ContainsConcat(Lower(condition), Lower(extra), "rain");
      ContainsConcat(Lower(extra), Lower(condition), "rain");
    } else {
      ContainsConcat(Lower(condition), Lower(extra), "drizzle");
      ContainsConcat(Lower(extra), Lower(condition), "drizzle");
    }
  }
}
