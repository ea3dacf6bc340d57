/** The deterministic parts of `CareerAdvisorRAG` in rag_pipeline.py: the
    skill batch built by `ingest_from_json`, the profile text of
    `get_user_context`, and the knowledge-base block and prompt that
    `query_advisor` hands to the text generator. The embedding model, the
    vector store's query, the profile lookup and the generator are
    parameters. */
module RagPipeline {
  import opened PyJson
  import opened Batching

  /** The metadata stored with each skill: category, difficulty and demand. */
  datatype SkillMeta = SkillMeta(category: Json, difficulty: Json, demand: Json)

  /** What `ingest_from_json` does with a loaded file: nothing when its shape
      is not recognized, otherwise one run of the batch loop. */
  datatype Ingestion = NotRecognized | Ran(outcome: Outcome<SkillMeta>)

  // ------------------------------------------------------ ingest_from_json

  /** The value iterated over: the `"skills"` entry of a dict, or the list itself. */
  function SchemaList(data: Json): (r: Option<Json>)
    ensures data.JObj? && Has(data.fields, "skills") ==> r == Some(Value(data.fields, "skills"))
    ensures data.JList? ==> r == Some(data)
    ensures r.None? <==> !data.JList? && !(data.JObj? && Has(data.fields, "skills"))
  {
    if data.JObj? && Has(data.fields, "skills") then Some(Value(data.fields, "skills"))
    else if data.JList? then Some(data)
    else None
  }

  /** A skill's id is its `skill_name`, "Unknown Skill" when absent. */
  function SkillKey(item: Json): (r: Result<Option<Ident>>)
    ensures r.Ok? <==> item.JObj?
    ensures item.JObj? ==>
              var name := Get(item.fields, "skill_name", JStr("Unknown Skill"));
              r == Ok(Some(Ident(name, name)))
  {
    match item
    case JObj(fs) =>
      var name := Get(fs, "skill_name", JStr("Unknown Skill"));
      Ok(Some(Ident(name, name)))
    case _ => Err(NoAttribute)
  }

  /** The eight sentences of a skill's `semantic_text`, given its joined
      careers and use cases. */
  function SkillPieces(fs: seq<Field>, name: Json, careers: string, useCases: string): seq<string> {
    ["Skill: " + PyStr(name) + ". ",
     "Category: " + PyStr(Get(fs, "category", JStr("General"))) + ". ",
     "Description: " + PyStr(Get(fs, "description", JStr(""))) + " ",
     "Difficulty: " + PyStr(Get(fs, "difficulty_level", JStr("Medium"))) + ". ",
     "Time to learn: " + PyStr(Get(fs, "learning_time", JStr("Variable"))) + ". ",
     "Industry Demand: " + PyStr(Get(fs, "industry_demand", JStr("Medium"))) + ". ",
     "Used in careers: " + careers + ". ",
     "Use cases: " + useCases + "."]
  }

  /** The `semantic_text` of a skill (lines 77-86): it raises when
      `careers_using_this` or `use_cases` cannot be joined; otherwise its
      sentences follow each other with the looked-up values and defaults. */
  function SkillText(fs: seq<Field>, name: Json): (r: Result<string>)
    ensures r.Err? <==>
              JoinValue(", ", Get(fs, "careers_using_this", JList([]))).Err?
              || JoinValue(", ", Get(fs, "use_cases", JList([]))).Err?
    ensures r.Ok? ==>
              var parts := SkillPieces(fs, name, JoinValue(", ", Get(fs, "careers_using_this", JList([]))).value,
                                       JoinValue(", ", Get(fs, "use_cases", JList([]))).value);
              && |r.value| == Offset(parts, |parts|)
              && forall k :: 0 <= k < |parts| ==> OccursAt(parts[k], r.value, Offset(parts, k))
  {
    var careers :- JoinValue(", ", Get(fs, "careers_using_this", JList([])));
    var useCases :- JoinValue(", ", Get(fs, "use_cases", JList([])));
    var parts := SkillPieces(fs, name, careers, useCases);
    Layout(parts);
    Ok(Concat(parts))
  }

  /** The metadata of a skill: each field as stored, or its default
      "General", "Medium", "Medium" when absent. */
  function SkillMetaOf(fs: seq<Field>): (m: SkillMeta)
    ensures m.category == if Has(fs, "category") then Value(fs, "category") else JStr("General")
    ensures m.difficulty == if Has(fs, "difficulty_level") then Value(fs, "difficulty_level") else JStr("Medium")
    ensures m.demand == if Has(fs, "industry_demand") then Value(fs, "industry_demand") else JStr("Medium")
  {
    SkillMeta(Get(fs, "category", JStr("General")),
              Get(fs, "difficulty_level", JStr("Medium")),
              Get(fs, "industry_demand", JStr("Medium")))
  }

  function SkillRender(item: Json, ident: Ident): (r: Result<(string, SkillMeta)>)
    ensures r.Ok? ==> item.JObj? && r.value.1 == SkillMetaOf(item.fields)
  {
    match item
    case JObj(fs) =>
      var text :- SkillText(fs, ident.id);
      Ok((text, SkillMetaOf(fs)))
    case _ => Err(NoAttribute)
  }

  /** The loop of `ingest_from_json` as a function of the records: it only
      finishes when every record is a dict, since `.get` raises on anything
      else. */
  function Collect(items: seq<Json>, embed: string -> Vector): (r: Result<Batch<SkillMeta>>)
    ensures r.Ok? ==> forall j :: 0 <= j < |items| ==> items[j].JObj?
  {
    var r := Fold(items, SkillKey, SkillRender, embed);
    if r.Ok? then
      forall j | 0 <= j < |items| ensures items[j].JObj? {
        FoldKeysEvery(items, SkillKey, SkillRender, embed, j);
      }
      r
    else r
  }

  /** `ingest_from_json` on the loaded value `data`. */
  function Ingest(data: Json, embed: string -> Vector): (r: Ingestion)
    ensures r.NotRecognized? <==> SchemaList(data).None?
    ensures SchemaList(data).Some? && !Elements(SchemaList(data).value).Ok? ==> r == Ran(Raised(NotIterable))
    ensures SchemaList(data).Some? && Elements(SchemaList(data).value).Ok? ==>
              r == Ran(ToOutcome(Collect(Elements(SchemaList(data).value).value, embed)))
  {
    match SchemaList(data)
    case None => NotRecognized
    case Some(list) =>
      match Elements(list)
      case Err(e) => Ran(Raised(e))
      case Ok(items) => Ran(ToOutcome(Collect(items, embed)))
  }

  /** `ingest_from_json`: check the shape, run the batch loop over the
      records, upsert a non-empty batch. */
  method IngestFromJson(data: Json, embed: string -> Vector) returns (r: Ingestion)
    ensures r == Ingest(data, embed)
    ensures r.Ran? && r.outcome.Upsert? ==>
              && Parallel(r.outcome.batch) && r.outcome.batch.ids != []
              && DistinctKeys(r.outcome.batch.ids)
  {
    var list := SchemaList(data);
    if list.None? {
      return NotRecognized;
    }
    var items := Elements(list.value);
    if items.Err? {
      return Ran(Raised(items.error));
    }
    var built := BuildBatch(items.value, SkillKey, SkillRender, embed);
    if built.Err? {
      return Ran(Raised(built.error));
    }
    if built.value.ids == [] {
      return Ran(NoUpsert);
    }
    return Ran(Upsert(built.value));
  }

  /** What the skill batch holds: entry k comes from the first record whose
      `skill_name` (default "Unknown Skill") equals `ids[k]`; its id is that
      raw value, its metadata the record's category, difficulty and demand
      with their defaults, its document the record's text; every record's
      name is present; and the entries keep the input order. */
  lemma SkillBatchContents(items: seq<Json>, embed: string -> Vector)
    requires Collect(items, embed).Ok?
    ensures var b := Collect(items, embed).value;
            forall k :: 0 <= k < |b.ids| ==>
              var j := Origin(items, SkillKey, HashKey(b.ids[k]));
              && j < |items| && items[j].JObj?
              && b.ids[k] == Get(items[j].fields, "skill_name", JStr("Unknown Skill"))
              && b.metadatas[k] == SkillMetaOf(items[j].fields)
              && SkillText(items[j].fields, b.ids[k]) == Ok(b.documents[k])
    ensures var b := Collect(items, embed).value;
            forall j :: 0 <= j < |items| ==>
              items[j].JObj? && HashKey(Get(items[j].fields, "skill_name", JStr("Unknown Skill"))) in Keys(b.ids)
    ensures var b := Collect(items, embed).value;
            forall k1, k2 :: 0 <= k1 < k2 < |b.ids| ==>
              Origin(items, SkillKey, HashKey(b.ids[k1])) < Origin(items, SkillKey, HashKey(b.ids[k2]))
  {
    var b := Collect(items, embed).value;
    FoldSound(items, SkillKey, SkillRender, embed);
    forall k | 0 <= k < |b.ids|
      ensures var j := Origin(items, SkillKey, HashKey(b.ids[k]));
              && j < |items| && items[j].JObj?
              && b.ids[k] == Get(items[j].fields, "skill_name", JStr("Unknown Skill"))
              && b.metadatas[k] == SkillMetaOf(items[j].fields)
              && SkillText(items[j].fields, b.ids[k]) == Ok(b.documents[k])
    {
      var j := Origin(items, SkillKey, HashKey(b.ids[k]));
      assert FromOrigin(items, SkillKey, SkillRender, b, k);
      SkillRendered(items[j], SkillKey(items[j]).value.value, b.documents[k], b.metadatas[k]);
    }
    forall j | 0 <= j < |items|
      ensures items[j].JObj? && HashKey(Get(items[j].fields, "skill_name", JStr("Unknown Skill"))) in Keys(b.ids)
    {
      FoldKeysEvery(items, SkillKey, SkillRender, embed, j);
      FoldComplete(items, SkillKey, SkillRender, embed, j);
    }
  }

  lemma SkillRendered(item: Json, ident: Ident, doc: string, meta: SkillMeta)
    requires SkillRender(item, ident) == Ok((doc, meta))
    ensures item.JObj? && meta == SkillMetaOf(item.fields) && SkillText(item.fields, ident.id) == Ok(doc)
  {
  }

  /** Records without a `skill_name` all collapse into one "Unknown Skill"
      entry. */
  lemma UnknownSkillCollapses(items: seq<Json>, embed: string -> Vector, j: nat)
    requires Collect(items, embed).Ok?
    requires j < |items| && items[j].JObj? && !Has(items[j].fields, "skill_name")
    ensures var b := Collect(items, embed).value;
            exists k :: 0 <= k < |b.ids| && b.ids[k] == JStr("Unknown Skill") &&
                        forall k' :: 0 <= k' < |b.ids| && b.ids[k'] == JStr("Unknown Skill") ==> k' == k
  {
    var b := Collect(items, embed).value;
    FoldKeysEvery(items, SkillKey, SkillRender, embed, j);
    FoldComplete(items, SkillKey, SkillRender, embed, j);
    var k :| 0 <= k < |b.ids| && HashKey(b.ids[k]) == JStr("Unknown Skill");
    assert b.ids[k] == JStr("Unknown Skill");
  }

  // ------------------------------------------------------ get_user_context

  const GenericUser := "User profile not found. Treat as a generic user."

  /** The pieces of a found profile's text, given its joined skills. */
  function ProfileParts(fs: seq<Field>, skills: string): seq<string> {
    ["User Profile: ", PyStr(Get(fs, "name", JStr("User"))),
     ". Skills: ", skills,
     ". Experience: ", PyStr(Get(fs, "experience", JStr("Not specified"))),
     ". Goal: ", PyStr(Get(fs, "career_goal", JStr("Not specified"))), "."]
  }

  /** `get_user_context` given the profile document the lookup returned
      (None when no user has that email). An empty document is falsy and
      counts as not found. A found profile's text names the user, lists the
      skills joined by ", ", then the experience and the goal, each field
      replaced by its default when absent. */
  function GetUserContext(user: Option<seq<Field>>): (r: Result<string>)
    ensures r == Ok(GenericUser) <==> user.None? || user.value == []
    ensures r.Err? <==>
              user.Some? && user.value != [] && JoinValue(", ", Get(user.value, "skills", JList([]))).Err?
    ensures r.Ok? && user.Some? && user.value != [] ==>
              r.value == ProfileText(user.value, JoinValue(", ", Get(user.value, "skills", JList([]))).value)
  {
    if user.None? || user.value == [] then Ok(GenericUser)
    else
      var skills :- JoinValue(", ", Get(user.value, "skills", JList([])));
      Ok(ProfileText(user.value, skills))
  }

  /** A found profile's text: its pieces in order, never the generic sentence. */
  function ProfileText(fs: seq<Field>, skills: string): (t: string)
    ensures var parts := ProfileParts(fs, skills);
            && |t| == Offset(parts, |parts|)
            && forall k :: 0 <= k < |parts| ==> OccursAt(parts[k], t, Offset(parts, k))
    ensures t != GenericUser
  {
    var parts := ProfileParts(fs, skills);
    Layout(parts);
    assert OccursAt(parts[0], Concat(parts), 0);
    HeadedNotGeneric(Concat(parts));
    Concat(parts)
  }

  /** A text that starts "User Profile: " is not the generic sentence. */
  lemma HeadedNotGeneric(t: string)
    requires OccursAt("User Profile: ", t, 0)
    ensures t != GenericUser
  {
    assert t[5] == "User Profile: "[5] == 'P';
  }

  /** A profile with none of the four fields gets every default. */
  lemma ProfileDefaults(fs: seq<Field>)
    requires fs != []
    requires !Has(fs, "name") && !Has(fs, "skills") && !Has(fs, "experience") && !Has(fs, "career_goal")
    ensures GetUserContext(Some(fs)) ==
              Ok(Concat(["User Profile: ", "User", ". Skills: ", "", ". Experience: ", "Not specified",
                         ". Goal: ", "Not specified", "."]))
  {
    assert JoinValue(", ", JList([])) == Ok("");
    assert PyStr(Get(fs, "name", JStr("User"))) == "User";
    assert PyStr(Get(fs, "experience", JStr("Not specified"))) == "Not specified";
    assert PyStr(Get(fs, "career_goal", JStr("Not specified"))) == "Not specified";
  }

  /** A found profile whose skills can be joined names the user right after
      "User Profile: ", lists the skills joined by ", " right after
      ". Skills: ", and states the experience and the goal; every absent
      field is replaced by its own default. */
  lemma ProfileFields(fs: seq<Field>)
    requires fs != [] && JoinValue(", ", Get(fs, "skills", JList([]))).Ok?
    ensures var r := GetUserContext(Some(fs));
            var name := PyStr(Get(fs, "name", JStr("User")));
            && r.Ok?
            && OccursAt("User Profile: ", r.value, 0)
            && OccursAt(name, r.value, 14)
            && OccursAt(". Skills: " + JoinValue(", ", Get(fs, "skills", JList([]))).value, r.value, 14 + |name|)
            && IsSubstring(". Experience: " + PyStr(Get(fs, "experience", JStr("Not specified"))), r.value)
            && IsSubstring(". Goal: " + PyStr(Get(fs, "career_goal", JStr("Not specified"))) + ".", r.value)
  {
    var skills := JoinValue(", ", Get(fs, "skills", JList([]))).value;
    var parts := ProfileParts(fs, skills);
    assert GetUserContext(Some(fs)) == Ok(Concat(parts));
    ProfileLayout(parts);
  }

  /** Where the nine pieces of a profile's text sit, for any nine strings. */
  lemma ProfileLayout(p: seq<string>)
    requires |p| == 9
    ensures var t := Concat(p);
            && OccursAt(p[0], t, 0)
            && OccursAt(p[1], t, |p[0]|)
            && OccursAt(p[2] + p[3], t, |p[0]| + |p[1]|)
            && IsSubstring(p[4] + p[5], t)
            && IsSubstring(p[6] + p[7] + p[8], t)
  {
    var t := Concat(p);
    assert Offset(p, 1) == |p[0]|;
    assert Offset(p, 2) == |p[0]| + |p[1]|;
    assert Offset(p, 7) == Offset(p, 6) + |p[6]|;
    assert Offset(p, 8) == Offset(p, 6) + |p[6] + p[7]|;
    PartAt(p, 0);
    PartAt(p, 1);
    AdjacentParts(p, 2);
    AdjacentParts(p, 4);
    AdjacentParts(p, 6);
    PartAt(p, 8);
    OccursAdjacent(p[6] + p[7], p[8], t, Offset(p, 6));
  }

  /** Every skill of a profile whose skills are a list of strings appears in
      the context. */
  lemma ProfileListsSkills(fs: seq<Field>)
    requires fs != [] && Has(fs, "skills")
    requires var v := Value(fs, "skills"); v.JList? && forall i :: 0 <= i < |v.items| ==> v.items[i].JStr?
    ensures var v := Value(fs, "skills");
            GetUserContext(Some(fs)).Ok? &&
            forall i :: 0 <= i < |v.items| ==> IsSubstring(v.items[i].s, GetUserContext(Some(fs)).value)
  {
    var v := Value(fs, "skills");
    var names := seq(|v.items|, i requires 0 <= i < |v.items| => v.items[i].s);
    var joined := Join(", ", names);
    assert JoinValue(", ", Get(fs, "skills", JList([]))) == Ok(joined);
    SkillsInProfile(fs, joined);
    JoinedWithin(", ", names, ProfileText(fs, joined), Offset(ProfileParts(fs, joined), 3));
    assert forall i :: 0 <= i < |v.items| ==> names[i] == v.items[i].s;
  }

  /** The joined skills sit in the fourth place of a profile's text. */
  lemma SkillsInProfile(fs: seq<Field>, skills: string)
    ensures OccursAt(skills, ProfileText(fs, skills), Offset(ProfileParts(fs, skills), 3))
  {
    assert ProfileParts(fs, skills)[3] == skills;
  }

  // ---------------------------------------------------------- query_advisor

  /** The number of documents requested from the vector store. */
  const NResults: nat := 3

  const NoKbData := "No specific data found in the Knowledge Base."

  /** `kb_context`: the retrieved documents one per line, in retrieval order,
      or the fixed message when nothing was retrieved. Document k starts
      after the k documents before it and their newlines, each document but
      the last is followed by a newline, and the text ends with the last
      document; this holds whatever the documents contain. */
  function KbContext(found: seq<string>): (r: string)
    ensures found == [] ==> r == NoKbData
    ensures found != [] ==> |r| == JoinOffset("\n", found, |found| - 1) + |found[|found| - 1]|
    ensures forall k :: 0 <= k < |found| ==> OccursAt(found[k], r, JoinOffset("\n", found, k))
    ensures forall k :: 0 <= k < |found| - 1 ==> OccursAt("\n", r, JoinOffset("\n", found, k) + |found[k]|)
    ensures forall i :: 0 <= i < |found| ==> IsSubstring(found[i], r)
    ensures found != [] && (forall i :: 0 <= i < |found| ==> '\n' !in found[i]) ==> Split(r, '\n') == found
  {
    if found == [] then NoKbData
    else
      Lines(found);
      Join("\n", found)
  }

  /** The facts about joining the retrieved documents with newlines. */
  lemma Lines(found: seq<string>)
    requires found != []
    ensures var r := Join("\n", found);
            && |r| == JoinOffset("\n", found, |found| - 1) + |found[|found| - 1]|
            && (forall k :: 0 <= k < |found| ==> OccursAt(found[k], r, JoinOffset("\n", found, k)))
            && (forall k :: 0 <= k < |found| - 1 ==> OccursAt("\n", r, JoinOffset("\n", found, k) + |found[k]|))
            && (forall i :: 0 <= i < |found| ==> IsSubstring(found[i], r))
            && ((forall i :: 0 <= i < |found| ==> '\n' !in found[i]) ==> Split(r, '\n') == found)
  {
    JoinLayout("\n", found);
    JoinContainsParts("\n", found);
    if forall i :: 0 <= i < |found| ==> '\n' !in found[i] {
      SplitJoin(found, '\n');
    }
  }

  const Indent := "        "

  const ProfileHeader := "\n" + Indent + "You are SkillSage, an AI Career Advisor.\n" + Indent + "\n"
                         + Indent + "--- USER PROFILE ---\n" + Indent
  const KbHeader := "\n" + Indent + "\n" + Indent + "--- KNOWLEDGE BASE (SOURCE OF TRUTH) ---\n" + Indent
  const QuestionHeader := "\n" + Indent + "\n" + Indent + "--- USER QUESTION ---\n" + Indent
  const Instructions := "\n" + Indent + "\n" + Indent + "--- INSTRUCTIONS ---\n"
    + Indent + "1. Answer ONLY using information from the 'KNOWLEDGE BASE' section above.\n"
    + Indent + "2. If the Knowledge Base is empty or doesn't contain the answer, say: \"I'm sorry, my internal database doesn't have information on that specific skill yet.\"\n"
    + Indent + "3. Do NOT use your outside training data to make up skills.\n"
    + Indent

  /** The pieces of `full_prompt`, in order. */
  function PromptParts(userContext: string, kbContext: string, query: string): seq<string> {
    [ProfileHeader, userContext, KbHeader, kbContext, QuestionHeader, query, Instructions]
  }

  /** `full_prompt`: each piece (profile header, profile, knowledge-base
      header, knowledge base, question header, question, instructions)
      occurs at the total length of the pieces before it, so they appear in
      this order and nothing lies between them. */
  function BuildPrompt(userContext: string, kbContext: string, query: string): (p: string)
    ensures var parts := PromptParts(userContext, kbContext, query);
            && |p| == Offset(parts, |parts|)
            && forall k :: 0 <= k < |parts| ==> OccursAt(parts[k], p, Offset(parts, k))
  {
    var parts := PromptParts(userContext, kbContext, query);
    Layout(parts);
    Concat(parts)
  }

  /** `query_advisor`: the profile context (whose exception propagates), the
      query embedded and used to request `NResults` documents, and the
      generator's reply to the assembled prompt. */
  function QueryAdvisor(user: Option<seq<Field>>, query: string, embed: string -> Vector,
                        search: (Vector, nat) -> seq<string>, generate: string -> string): (r: Result<string>)
    ensures r.Err? <==> GetUserContext(user).Err?
    ensures r.Ok? ==>
              r.value == generate(BuildPrompt(GetUserContext(user).value,
                                              KbContext(search(embed(query), NResults)), query))
  {
    var userContext :- GetUserContext(user);
    var found := search(embed(query), NResults);
    Ok(generate(BuildPrompt(userContext, KbContext(found), query)))
  }

  /** With nothing retrieved, the knowledge-base block of the prompt is the
      fixed "No specific data found" message. */
  lemma EmptyRetrievalFallback(user: Option<seq<Field>>, query: string, embed: string -> Vector,
                               search: (Vector, nat) -> seq<string>, generate: string -> string)
    requires search(embed(query), NResults) == []
    requires GetUserContext(user).Ok?
    ensures var ctx := GetUserContext(user).value;
            QueryAdvisor(user, query, embed, search, generate) ==
              Ok(generate(BuildPrompt(ctx, NoKbData, query)))
  {
  }
}
