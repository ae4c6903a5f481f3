/** The AI tier of classification: the model's reply is cleaned of Markdown
    code fences, parsed as JSON, and every element that names a transaction
    and a known category is kept. The model itself and the JSON parser are
    parameters: the reply arrives as a `Result<string>` and `parse` stands for
    `JSON.parse`. */
module Ai {
  import opened Common
  import opened Db
  import opened Direction

  /** A transaction as it is described to the model. */
  datatype TransactionInput = TransactionInput(id: string, description: string, amount: string, txType: TxType)

  /** One answer of the model: this transaction gets this category. */
  datatype AiClassification = AiClassification(transactionId: string, categoryId: string)

  /** A parsed JSON value. */
  datatype Json =
    | JNull
    | JBool(b: bool)
    | JNumber(n: real)
    | JString(s: string)
    | JArray(items: seq<Json>)
    | JObject(fields: map<string, Json>)

  const MissingKeyMessage: string := "Missing GOOGLE_GENERATIVE_AI_API_KEY"
  const NotAnArrayMessage: string := "AI response is not an array"

  // ---------------------------------------------------------------------
  // Category labels

  /** The label a category carries in the prompt: "Parent > Name" when it has
      a (non-empty) parent name, its own name otherwise. */
  function Label(c: CategoryWithParent): (r: string)
    ensures |r| >= |c.name| && r[|r| - |c.name|..] == c.name
    ensures r == c.name <==> !IsSet(c.parentName)
    ensures IsSet(c.parentName) ==> c.parentName.value + " > " <= r
  {
    if IsSet(c.parentName) then c.parentName.value + " > " + c.name else c.name
  }

  // ---------------------------------------------------------------------
  // Code fences

  /** Consumes the optional characters `opt` in order, each only when it comes
      next: the tail `x?y?` of a regular expression. */
  function DropOptional(s: string, opt: seq<char>): (r: string)
    ensures |r| <= |s|
  {
    if opt == [] then s
    else if |s| > 0 && s[0] == opt[0] then DropOptional(s[1..], opt[1..])
    else DropOptional(s, opt[1..])
  }

  /** When every optional character is there, all of them are consumed. */
  lemma {:induction false} DropOptionalAll(opt: seq<char>, rest: string)
    ensures DropOptional(opt + rest, opt) == rest
  {
    if opt != [] {
      assert (opt + rest)[1..] == opt[1..] + rest;
      DropOptionalAll(opt[1..], rest);
    } else {
      assert opt + rest == rest;
    }
  }

  /** `s.replace(/<head><opt[0]>?<opt[1]>?/g, "")`: every leftmost,
      non-overlapping match of `head` followed by the optional characters is
      removed, scanning left to right. */
  function RemoveAll(s: string, head: string, opt: seq<char>): (r: string)
    requires |head| > 0
    ensures |r| <= |s|
    decreases |s|
  {
    if s == [] then []
    else if head <= s then RemoveAll(DropOptional(s[|head|..], opt), head, opt)
    else [s[0]] + RemoveAll(s[1..], head, opt)
  }

  /** The cleaning before `JSON.parse`: remove "```json" / "```jso" fences (with
      an optional newline), then plain "```" fences (with an optional newline),
      then trim. */
  function StripFences(text: string): (r: string)
    ensures IsTrimmed(r)
    ensures |r| <= |text|
  {
    Trim(RemoveAll(RemoveAll(text, "```jso", "n\n"), "```", "\n"))
  }

  predicate NoBackticks(s: string) {
    forall i :: 0 <= i < |s| ==> s[i] != '`'
  }

  /** Text without a backtick passes through a removal untouched, whatever follows it. */
  lemma {:induction false} RemoveAllSkipsPlainText(body: string, rest: string, head: string, opt: seq<char>)
    requires |head| > 0 && head[0] == '`'
    requires NoBackticks(body)
    ensures RemoveAll(body + rest, head, opt) == body + RemoveAll(rest, head, opt)
    decreases |body|
  {
    if body != [] {
      var s := body + rest;
      assert RemoveAll(s, head, opt) == [body[0]] + RemoveAll(body[1..] + rest, head, opt) by {
        assert s[0] == body[0] && body[0] != '`';
        assert !(head <= s);
        assert s[1..] == body[1..] + rest;
      }
      RemoveAllSkipsPlainText(body[1..], rest, head, opt);
      assert [body[0]] + (body[1..] + RemoveAll(rest, head, opt)) == body + RemoveAll(rest, head, opt);
    } else {
      assert body + rest == rest;
    }
  }

  /** A reply without any backtick is only trimmed. */
  lemma StripFencesPlain(text: string)
    requires NoBackticks(text)
    ensures StripFences(text) == Trim(text)
  {
    RemoveAllSkipsPlainText(text, [], "```jso", "n\n");
    RemoveAllSkipsPlainText(text, [], "```", "\n");
    assert text + [] == text;
  }

  /** A body wrapped in a "```json" fence is recovered, trimmed. */
  lemma StripFencesJson(body: string)
    requires NoBackticks(body)
    ensures StripFences("```json\n" + body + "```") == Trim(body)
  {
    var text := "```json\n" + body + "```";
    assert RemoveAll(text, "```jso", "n\n") == body + "```" by {
      assert "```jso" <= text;
      assert text[6..] == "n\n" + (body + "```");
      DropOptionalAll("n\n", body + "```");
      RemoveAllSkipsPlainText(body, "```", "```jso", "n\n");
      assert !("```jso" <= "```");
      assert RemoveAll("```", "```jso", "n\n") == "```";
    }
    assert RemoveAll(body + "```", "```", "\n") == body by {
      RemoveAllSkipsPlainText(body, "```", "```", "\n");
      assert RemoveAll("```", "```", "\n") == [];
      assert body + [] == body;
    }
  }

  /** A "```" followed by a newline is not a "```json" fence: the first removal
      keeps it. */
  lemma {:induction false} BareFenceKept(t: string)
    requires |t| > 0 && t[0] == '\n'
    ensures RemoveAll("```" + t, "```jso", "n\n") == "```" + RemoveAll(t, "```jso", "n\n")
  {
    var s := "```" + t;
    assert s[3] == '\n';
    assert !("```jso" <= s);
    assert s[1..] == "``" + t;
    assert !("```jso" <= s[1..]) by { assert s[1..][2] == '\n'; }
    assert s[2..] == "`" + t;
    assert !("```jso" <= s[2..]) by { assert s[2..][1] == '\n'; }
    assert s[3..] == t;
    assert RemoveAll(s[2..], "```jso", "n\n") == "`" + RemoveAll(t, "```jso", "n\n");
    assert RemoveAll(s[1..], "```jso", "n\n") == "``" + RemoveAll(t, "```jso", "n\n");
  }

  /** A body wrapped in a plain "```" fence is recovered, trimmed. */
  lemma StripFencesPlainFence(body: string)
    requires NoBackticks(body)
    ensures StripFences("```\n" + body + "```") == Trim(body)
  {
    var t := "\n" + body;
    var text := "```" + t + "```";
    assert "```\n" + body + "```" == text;
    assert RemoveAll(text, "```jso", "n\n") == text by {
      assert text == "```" + (t + "```");
      BareFenceKept(t + "```");
      assert NoBackticks(t);
      RemoveAllSkipsPlainText(t, "```", "```jso", "n\n");
      assert RemoveAll("```", "```jso", "n\n") == "```";
    }
    assert RemoveAll(text, "```", "\n") == body by {
      assert "```" <= text;
      assert text[3..] == "\n" + (body + "```");
      DropOptionalAll("\n", body + "```");
      RemoveAllSkipsPlainText(body, "```", "```", "\n");
      assert RemoveAll("```", "```", "\n") == [];
      assert body + [] == body;
    }
  }

  // ---------------------------------------------------------------------
  // Validation of the parsed answer

  /** The ids of the supplied categories: `new Set(categoryOptions.map(c => c.id))`. */
  function OptionIds(options: seq<CategoryWithParent>): set<string> {
    set c | c in options :: c.id
  }

  /** One element of the parsed array: an object whose `id` and `categoryId` are
      strings and whose category is one of the valid ids gives a mapping;
      anything else gives none. */
  function AsClassification(item: Json, validIds: set<string>): (r: Option<AiClassification>)
    ensures r.Some? ==> r.value.categoryId in validIds
    ensures r.Some? ==>
      item.JObject? && "id" in item.fields && "categoryId" in item.fields
      && item.fields["id"] == JString(r.value.transactionId)
      && item.fields["categoryId"] == JString(r.value.categoryId)
    ensures !item.JObject? ==> r.None?
    ensures (item.JObject? && "id" in item.fields && "categoryId" in item.fields
             && item.fields["id"].JString? && item.fields["categoryId"].JString?
             && item.fields["categoryId"].s in validIds) ==> r.Some?
  {
    if item.JObject? && "id" in item.fields && "categoryId" in item.fields
       && item.fields["id"].JString? && item.fields["categoryId"].JString?
       && item.fields["categoryId"].s in validIds
    then Some(AiClassification(item.fields["id"].s, item.fields["categoryId"].s))
    else None
  }

  /** The mappings the validation keeps from `items`, in their order. */
  function Validated(items: seq<Json>, validIds: set<string>): (r: seq<AiClassification>)
    ensures |r| <= |items|
  {
    if items == [] then []
    else
      var init := Validated(items[..|items| - 1], validIds);
      match AsClassification(items[|items| - 1], validIds)
      case Some(c) => init + [c]
      case None => init
  }

  /** A mapping is kept exactly when some element of the array yields it; in
      particular every kept category id is a valid one. */
  lemma {:induction false} ValidatedMembers(items: seq<Json>, validIds: set<string>)
    ensures forall c :: c in Validated(items, validIds) <==>
      exists i :: 0 <= i < |items| && AsClassification(items[i], validIds) == Some(c)
    ensures forall c :: c in Validated(items, validIds) ==> c.categoryId in validIds
  {
    if items != [] {
      var init := items[..|items| - 1];
      ValidatedMembers(init, validIds);
      forall c
        ensures c in Validated(items, validIds) <==>
          exists i :: 0 <= i < |items| && AsClassification(items[i], validIds) == Some(c)
      {
        if c in Validated(items, validIds) && c !in Validated(init, validIds) {
          assert AsClassification(items[|items| - 1], validIds) == Some(c);
        }
        if exists i :: 0 <= i < |items| && AsClassification(items[i], validIds) == Some(c) {
          var i :| 0 <= i < |items| && AsClassification(items[i], validIds) == Some(c);
          if i < |items| - 1 {
            assert init[i] == items[i];
          }
        }
      }
    }
  }

  /** Validation keeps the order of the array: validating a concatenation
      validates each part and concatenates the results. */
  lemma {:induction false} ValidatedAppend(xs: seq<Json>, ys: seq<Json>, validIds: set<string>)
    ensures Validated(xs + ys, validIds) == Validated(xs, validIds) + Validated(ys, validIds)
    decreases |ys|
  {
    if ys == [] {
      assert xs + ys == xs;
    } else {
      var ys', y := ys[..|ys| - 1], ys[|ys| - 1];
      assert (xs + ys)[..|xs + ys| - 1] == xs + ys';
      assert (xs + ys)[|xs + ys| - 1] == y;
      ValidatedAppend(xs, ys', validIds);
    }
  }

  /** The validation loop: each element that passes the checks is pushed to
      `results`. */
  method ValidateItems(items: seq<Json>, validIds: set<string>) returns (results: seq<AiClassification>)
    ensures results == Validated(items, validIds)
  {
    results := [];
    var i := 0;
    while i < |items|
      invariant 0 <= i <= |items|
      invariant results == Validated(items[..i], validIds)
    {
      assert items[..i + 1][..i] == items[..i];
      var item := items[i];
      if item.JObject? && "id" in item.fields && "categoryId" in item.fields
         && item.fields["id"].JString? && item.fields["categoryId"].JString?
         && item.fields["categoryId"].s in validIds
      {
        results := results + [AiClassification(item.fields["id"].s, item.fields["categoryId"].s)];
      }
      i := i + 1;
    }
    assert items[..|items|] == items;
  }

  /** What `classifyWithAi` does with the reply once the model has answered:
      clean it, parse it, insist on an array and validate its elements. */
  function Interpret(reply: string, parse: string -> Result<Json>, validIds: set<string>): (r: Result<seq<AiClassification>>)
    ensures parse(StripFences(reply)).Err? ==> r == Err(parse(StripFences(reply)).message)
    ensures parse(StripFences(reply)).Ok? && !parse(StripFences(reply)).value.JArray? ==> r == Err(NotAnArrayMessage)
    ensures r.Ok? ==> exists items :: parse(StripFences(reply)) == Ok(JArray(items)) && r.value == Validated(items, validIds)
  {
    match parse(StripFences(reply))
    case Err(e) => Err(e)
    case Ok(v) =>
      if v.JArray? then Ok(Validated(v.items, validIds)) else Err(NotAnArrayMessage)
  }

  /** `classifyWithAi`: an empty batch gives no mappings and the model is not
      asked; without an API key the call fails before the model is asked; a
      failed model call, an unparsable or non-array reply fail with their
      error; otherwise the valid mappings of the reply are returned. */
  method ClassifyWithAi(txns: seq<TransactionInput>, options: seq<CategoryWithParent>, apiKey: Option<string>,
                        reply: Result<string>, parse: string -> Result<Json>)
    returns (r: Result<seq<AiClassification>>, askedModel: bool)
    ensures askedModel <==> |txns| > 0 && IsSet(apiKey)
    ensures |txns| == 0 ==> r == Ok([])
    ensures |txns| > 0 && !IsSet(apiKey) ==> r == Err(MissingKeyMessage)
    ensures askedModel && reply.Err? ==> r == Err(reply.message)
    ensures askedModel && reply.Ok? ==> r == Interpret(reply.value, parse, OptionIds(options))
    ensures r.Ok? ==> forall c :: c in r.value ==> c.categoryId in OptionIds(options)
  {
    if |txns| == 0 {
      return Ok([]), false;
    }
    if !IsSet(apiKey) {
      return Err(MissingKeyMessage), false;
    }
    askedModel := true;
    if reply.Err? {
      return Err(reply.message), askedModel;
    }
    var parsed := parse(StripFences(reply.value));
    if parsed.Err? {
      return Err(parsed.message), askedModel;
    }
    if !parsed.value.JArray? {
      return Err(NotAnArrayMessage), askedModel;
    }
    var validIds := OptionIds(options);
    var results := ValidateItems(parsed.value.items, validIds);
    ValidatedMembers(parsed.value.items, validIds);
    r := Ok(results);
  }
}
