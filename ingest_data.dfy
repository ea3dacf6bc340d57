/** The batch builder of ingest_data.py: `ingest_collection` turns a list of
    career, skill or FAQ records into one upsert for the vector store, and
    the main block first unwraps a dataset that is a dict around its list. */
module IngestData {
  import opened PyJson
  import opened Batching

  /** The metadata stored with each document: `{"type": type_label, "title": title}`. */
  datatype Meta = Meta(kind: string, title: Json)

  /** The four fields that identify a record, in precedence order. */
  const IdFields: seq<string> := ["career_id", "skill_id", "faq_id", "skill_name"]

  /** The id of a seed record: "seed_" and its skill name, lower-cased, with
      every space replaced by an underscore. */
  function SeedId(name: string, lower: char -> char): (id: string)
    ensures |id| == |name| + 5 && id[..5] == "seed_"
    ensures forall i :: 0 <= i < |name| ==>
              id[5 + i] == if lower(name[i]) == ' ' then '_' else lower(name[i])
    ensures forall i :: 5 <= i < |id| ==> id[i] != ' '
  {
    "seed_" + Replace(Lower(name, lower), ' ', '_')
  }

  /** `any(k in item for k in keys)`, evaluated left to right, raising as `in` does. */
  function ContainsAny(item: Json, keys: seq<string>): (r: Result<bool>)
    ensures item.JObj? || item.JStr? || item.JList? ==> r.Ok?
    ensures !(item.JObj? || item.JStr? || item.JList?) && keys != [] ==> r == Err(NotIterable)
    ensures r.Ok? ==> (r.value <==> exists i :: 0 <= i < |keys| && Contains(item, keys[i]) == Ok(true))
  {
    if keys == [] then Ok(false)
    else
      var here :- Contains(item, keys[0]);
      if here then Ok(true)
      else
        var r := ContainsAny(item, keys[1..]);
        assert forall i :: 0 < i < |keys| ==> keys[1..][i - 1] == keys[i];
        r
  }

  /** The id and title of a record (ingest_data.py lines 41-56): `career_id`,
      then `skill_id`, then `faq_id`, then a seed id built from `skill_name`;
      `None` for a record with none of them. */
  function Derive(item: Json, lower: char -> char): (r: Result<Option<Ident>>)
    ensures r.Ok? && r.value.Some? ==> item.JObj?
    ensures item.JObj? ==>
              (r == Ok(None) <==>
                 !Has(item.fields, "career_id") && !Has(item.fields, "skill_id") &&
                 !Has(item.fields, "faq_id") && !Has(item.fields, "skill_name"))
    ensures item.JObj? && r.Err? ==>
              Has(item.fields, "skill_name") && !Value(item.fields, "skill_name").JStr?
    ensures item.JObj? ==>
              (r.Err? <==>
                 !Has(item.fields, "career_id") && !Has(item.fields, "skill_id") &&
                 !Has(item.fields, "faq_id") && Has(item.fields, "skill_name") &&
                 !Value(item.fields, "skill_name").JStr?)
    ensures !item.JObj? ==> (r == Ok(None) <==> ContainsAny(item, IdFields) == Ok(false))
    ensures !item.JObj? && ContainsAny(item, IdFields).Err? ==> r == Err(NotIterable)
  {
    match item
    case JObj(fs) =>
      if Has(fs, "career_id") then
        Ok(Some(Ident(Value(fs, "career_id"), Get(fs, "career_title", JStr("Unknown Career")))))
      else if Has(fs, "skill_id") then
        Ok(Some(Ident(Value(fs, "skill_id"), Get(fs, "skill_name", JStr("Unknown Skill")))))
      else if Has(fs, "faq_id") then
        Ok(Some(Ident(Value(fs, "faq_id"), Get(fs, "question", JStr("Unknown Question")))))
      else if Has(fs, "skill_name") then
        (match Value(fs, "skill_name")
         case JStr(name) => Ok(Some(Ident(JStr(SeedId(name, lower)), JStr(name))))
         case _ => Err(NoAttribute))
      else
        Ok(None)
    case _ =>
      // `k in item` on a string or list tests substrings or elements; when
      // one succeeds, `item[k]` raises.
      var present :- ContainsAny(item, IdFields);
      if present then Err(NotSubscriptable) else Ok(None)
  }

  /** `lt_raw` rendered for "Time to learn": a dict gives its `proficiency`
      entry (default "Variable"), anything else its str(). */
  function LearningTime(raw: Json): (r: string)
    ensures raw.JObj? && Has(raw.fields, "proficiency") ==> r == PyStr(Value(raw.fields, "proficiency"))
    ensures raw.JObj? && !Has(raw.fields, "proficiency") ==> r == "Variable"
    ensures !raw.JObj? ==> r == PyStr(raw)
  {
    match raw
    case JObj(fs) => PyStr(Get(fs, "proficiency", JStr("Variable")))
    case _ => PyStr(raw)
  }

  /** `career_applications or careers_using_this`, each defaulting to []. */
  function RelatedCareers(fields: seq<Field>): (r: Json)
    ensures Has(fields, "career_applications") && Truthy(Value(fields, "career_applications")) ==>
              r == Value(fields, "career_applications")
    ensures !(Has(fields, "career_applications") && Truthy(Value(fields, "career_applications"))) ==>
              r == Get(fields, "careers_using_this", JList([]))
  {
    var first := Get(fields, "career_applications", JList([]));
    if Truthy(first) then first else Get(fields, "careers_using_this", JList([]))
  }

  /** The seven sentences of a career's text, given its salary, demand,
      joined skills and education. */
  function CareerPieces(fs: seq<Field>, title: Json, salary: Json, demand: Json, skills: string, education: Json): seq<string> {
    ["Career: " + PyStr(title) + ". ",
     "Category: " + PyStr(Get(fs, "category", JStr(""))) + ". ",
     "Description: " + PyStr(Get(fs, "description", JStr(""))) + " ",
     "Salary: " + PyStr(salary) + ". ",
     "Demand: " + PyStr(demand) + ". ",
     "Skills Needed: " + skills + ". ",
     "Education: " + PyStr(education) + "."]
  }

  /** The text of a career record: it raises when `salary_range`,
      `job_market` or `education_requirements` is present but not a dict, or
      when `required_skills` cannot be joined; otherwise its sentences follow
      each other with the looked-up values and their defaults. */
  function CareerText(fs: seq<Field>, title: Json): (r: Result<string>)
    ensures r.Err? <==>
              || !Get(fs, "salary_range", JObj([])).JObj?
              || !Get(fs, "job_market", JObj([])).JObj?
              || JoinValue(", ", Get(fs, "required_skills", JList([]))).Err?
              || !Get(fs, "education_requirements", JObj([])).JObj?
    ensures r.Ok? ==>
              var parts := CareerPieces(fs, title,
                                        Get(Get(fs, "salary_range", JObj([])).fields, "mid_level", JStr("N/A")),
                                        Get(Get(fs, "job_market", JObj([])).fields, "demand", JStr("N/A")),
                                        JoinValue(", ", Get(fs, "required_skills", JList([]))).value,
                                        Get(Get(fs, "education_requirements", JObj([])).fields, "minimum", JStr("")));
              && |r.value| == Offset(parts, |parts|)
              && forall k :: 0 <= k < |parts| ==> OccursAt(parts[k], r.value, Offset(parts, k))
  {
    var salary :- DictGet(Get(fs, "salary_range", JObj([])), "mid_level", JStr("N/A"));
    var demand :- DictGet(Get(fs, "job_market", JObj([])), "demand", JStr("N/A"));
    var skills :- JoinValue(", ", Get(fs, "required_skills", JList([])));
    var education :- DictGet(Get(fs, "education_requirements", JObj([])), "minimum", JStr(""));
    var parts := CareerPieces(fs, title, salary, demand, skills, education);
    Layout(parts);
    Ok(Concat(parts))
  }

  /** The seven sentences of a skill's text, given its joined use cases and
      related careers. */
  function SkillPieces(fs: seq<Field>, title: Json, useCases: string, related: string): seq<string> {
    ["Skill: " + PyStr(title) + ". ",
     "Category: " + PyStr(Get(fs, "category", JStr(""))) + ". ",
     "Description: " + PyStr(Get(fs, "description", JStr(""))) + " ",
     "Difficulty: " + PyStr(Get(fs, "difficulty_level", JStr(""))) + ". ",
     "Time to learn: " + LearningTime(Get(fs, "learning_time", JStr("N/A"))) + ". ",
     "Use Cases: " + useCases + ". ",
     "Related Careers: " + related + "."]
  }

  /** The text of a skill record: it raises when `use_cases` or the related
      careers cannot be joined; otherwise its sentences follow each other,
      with the learning time and related careers chosen as described above. */
  function SkillText(fs: seq<Field>, title: Json): (r: Result<string>)
    ensures r.Err? <==>
              JoinValue(", ", Get(fs, "use_cases", JList([]))).Err? || JoinValue(", ", RelatedCareers(fs)).Err?
    ensures r.Ok? ==>
              var parts := SkillPieces(fs, title, JoinValue(", ", Get(fs, "use_cases", JList([]))).value,
                                       JoinValue(", ", RelatedCareers(fs)).value);
              && |r.value| == Offset(parts, |parts|)
              && forall k :: 0 <= k < |parts| ==> OccursAt(parts[k], r.value, Offset(parts, k))
  {
    var useCases :- JoinValue(", ", Get(fs, "use_cases", JList([])));
    var related :- JoinValue(", ", RelatedCareers(fs));
    var parts := SkillPieces(fs, title, useCases, related);
    Layout(parts);
    Ok(Concat(parts))
  }

  /** The three sentences of an FAQ's text. */
  function FaqPieces(fs: seq<Field>, title: Json): seq<string> {
    ["Question: " + PyStr(title) + " ",
     "Answer: " + PyStr(Get(fs, "answer", JStr(""))) + " ",
     "Category: " + PyStr(Get(fs, "category", JStr(""))) + "."]
  }

  /** The text of an FAQ record never raises: question, answer and category
      follow each other. */
  function FaqText(fs: seq<Field>, title: Json): (r: string)
    ensures var parts := FaqPieces(fs, title);
            && |r| == Offset(parts, |parts|)
            && forall k :: 0 <= k < |parts| ==> OccursAt(parts[k], r, Offset(parts, k))
  {
    var parts := FaqPieces(fs, title);
    Layout(parts);
    Concat(parts)
  }

  /** The text embedded for a record of kind `typeLabel` (lines 66-106):
      a career, skill or FAQ record must be a dict; any other kind is the
      record's str(). */
  function Text(typeLabel: string, item: Json, title: Json): (r: Result<string>)
    ensures typeLabel == "career" && item.JObj? ==> r == CareerText(item.fields, title)
    ensures typeLabel == "skill" && item.JObj? ==> r == SkillText(item.fields, title)
    ensures typeLabel == "faq" && item.JObj? ==> r == Ok(FaqText(item.fields, title))
    ensures typeLabel in {"career", "skill", "faq"} && !item.JObj? ==> r == Err(NoAttribute)
    ensures typeLabel !in {"career", "skill", "faq"} ==> r == Ok(PyStr(item))
  {
    if typeLabel == "career" then
      if item.JObj? then CareerText(item.fields, title) else Err(NoAttribute)
    else if typeLabel == "skill" then
      if item.JObj? then SkillText(item.fields, title) else Err(NoAttribute)
    else if typeLabel == "faq" then
      if item.JObj? then Ok(FaqText(item.fields, title)) else Err(NoAttribute)
    else
      Ok(PyStr(item))
  }

  /** The document and metadata of a kept record. */
  function Render(typeLabel: string, item: Json, ident: Ident): (r: Result<(string, Meta)>)
    ensures r.Ok? <==> Text(typeLabel, item, ident.title).Ok?
    ensures r.Ok? ==> r.value == (Text(typeLabel, item, ident.title).value, Meta(typeLabel, ident.title))
  {
    var text :- Text(typeLabel, item, ident.title);
    Ok((text, Meta(typeLabel, ident.title)))
  }

  /** The record-specific parts of the loop, as function values. */
  function KeyOf(lower: char -> char): Json -> Result<Option<Ident>> {
    item => Derive(item, lower)
  }

  function RenderAs(typeLabel: string): (Json, Ident) -> Result<(string, Meta)> {
    (item, ident) => Render(typeLabel, item, ident)
  }

  /** The loop of `ingest_collection(collection_name, data, type_label)` as
      a function: every metadata record it builds carries the collection's
      type. */
  function Collect(data: seq<Json>, typeLabel: string, lower: char -> char, embed: string -> Vector): (r: Result<Batch<Meta>>)
    ensures r.Ok? ==> forall k :: 0 <= k < |r.value.metadatas| ==> r.value.metadatas[k].kind == typeLabel
  {
    FoldKinds(data, typeLabel, lower, embed);
    Fold(data, KeyOf(lower), RenderAs(typeLabel), embed)
  }

  /** Every metadata record the loop appends is `{type: type_label, ...}`. */
  lemma {:induction false} FoldKinds(data: seq<Json>, typeLabel: string, lower: char -> char, embed: string -> Vector)
    ensures var r := Fold(data, KeyOf(lower), RenderAs(typeLabel), embed);
            r.Ok? ==> forall k :: 0 <= k < |r.value.metadatas| ==> r.value.metadatas[k].kind == typeLabel
    decreases |data|
  {
    if data != [] {
      var init := data[..|data| - 1];
      FoldKinds(init, typeLabel, lower, embed);
      var r0 := Fold(init, KeyOf(lower), RenderAs(typeLabel), embed);
      if r0.Ok? {
        StepKinds(r0.value, data[|data| - 1], typeLabel, lower, embed);
      }
    }
  }

  lemma StepKinds(b: Batch<Meta>, item: Json, typeLabel: string, lower: char -> char, embed: string -> Vector)
    requires forall k :: 0 <= k < |b.metadatas| ==> b.metadatas[k].kind == typeLabel
    ensures var r := Step(b, item, KeyOf(lower), RenderAs(typeLabel), embed);
            r.Ok? ==> forall k :: 0 <= k < |r.value.metadatas| ==> r.value.metadatas[k].kind == typeLabel
  {
  }

  /** `ingest_collection`: the batch-building loop, then the upsert of a
      non-empty batch. */
  method IngestCollection(data: seq<Json>, typeLabel: string, lower: char -> char, embed: string -> Vector)
    returns (r: Outcome<Meta>)
    ensures r == ToOutcome(Collect(data, typeLabel, lower, embed))
    ensures r.Upsert? ==>
              && Parallel(r.batch) && 0 < |r.batch.ids| <= |data|
              && DistinctKeys(r.batch.ids)
              && forall k :: 0 <= k < |r.batch.ids| ==> r.batch.metadatas[k].kind == typeLabel
  {
    var built := BuildBatch(data, KeyOf(lower), RenderAs(typeLabel), embed);
    if built.Err? {
      return Raised(built.error);
    }
    if built.value.ids != [] {
      BatchContents(data, typeLabel, lower, embed);
      return Upsert(built.value);
    }
    return NoUpsert;
  }

  // -------------------------------------------------- properties of Collect

  /** Precedence: the first of `career_id`, `skill_id`, `faq_id` that a record
      has supplies its id, whatever else it has, with the title from the
      matching title field or its default. */
  lemma IdPrecedence(fs: seq<Field>, lower: char -> char)
    ensures Has(fs, "career_id") ==>
              Derive(JObj(fs), lower) == Ok(Some(Ident(Value(fs, "career_id"), Get(fs, "career_title", JStr("Unknown Career")))))
    ensures !Has(fs, "career_id") && Has(fs, "skill_id") ==>
              Derive(JObj(fs), lower) == Ok(Some(Ident(Value(fs, "skill_id"), Get(fs, "skill_name", JStr("Unknown Skill")))))
    ensures !Has(fs, "career_id") && !Has(fs, "skill_id") && Has(fs, "faq_id") ==>
              Derive(JObj(fs), lower) == Ok(Some(Ident(Value(fs, "faq_id"), Get(fs, "question", JStr("Unknown Question")))))
  {
  }

  /** The seed fallback: a record with only a string `skill_name` gets the id
      "seed_" + its lower-cased, underscored name and the raw name as title. */
  lemma SeedFallback(fs: seq<Field>, lower: char -> char)
    requires !Has(fs, "career_id") && !Has(fs, "skill_id") && !Has(fs, "faq_id")
    requires Has(fs, "skill_name") && Value(fs, "skill_name").JStr?
    ensures var name := Value(fs, "skill_name").s;
            Derive(JObj(fs), lower) == Ok(Some(Ident(JStr(SeedId(name, lower)), JStr(name))))
  {
  }

  /** Records without an identifying field contribute nothing: removing one
      from anywhere in the input leaves the outcome unchanged. */
  lemma UnidentifiedContributesNothing(before: seq<Json>, item: Json, after: seq<Json>, typeLabel: string,
                                       lower: char -> char, embed: string -> Vector)
    requires Derive(item, lower) == Ok(None)
    ensures Collect(before + [item] + after, typeLabel, lower, embed) == Collect(before + after, typeLabel, lower, embed)
  {
    FoldSkipsUnkeyed(before, item, after, KeyOf(lower), RenderAs(typeLabel), embed);
  }

  /** What the upserted batch holds (ingest_data.py lines 58-63, 109-117):
      entry k comes from the first record whose id equals `ids[k]`, with that
      record's exact id, document and `{type, title}` metadata, and the
      embedding of that document; every identified record's id is present;
      and the entries keep the input order. */
  lemma BatchContents(data: seq<Json>, typeLabel: string, lower: char -> char, embed: string -> Vector)
    requires Collect(data, typeLabel, lower, embed).Ok?
    ensures var b := Collect(data, typeLabel, lower, embed).value;
            forall k :: 0 <= k < |b.ids| ==>
              var j := Origin(data, KeyOf(lower), HashKey(b.ids[k]));
              && j < |data|
              && Derive(data[j], lower).value.value.id == b.ids[k]
              && b.metadatas[k] == Meta(typeLabel, Derive(data[j], lower).value.value.title)
              && Text(typeLabel, data[j], b.metadatas[k].title) == Ok(b.documents[k])
              && b.embeddings[k] == embed(b.documents[k])
    ensures var b := Collect(data, typeLabel, lower, embed).value;
            forall j :: 0 <= j < |data| && Derive(data[j], lower).Ok? && Derive(data[j], lower).value.Some? ==>
              HashKey(Derive(data[j], lower).value.value.id) in Keys(b.ids)
    ensures var b := Collect(data, typeLabel, lower, embed).value;
            forall k1, k2 :: 0 <= k1 < k2 < |b.ids| ==>
              Origin(data, KeyOf(lower), HashKey(b.ids[k1])) < Origin(data, KeyOf(lower), HashKey(b.ids[k2]))
  {
    var b := Collect(data, typeLabel, lower, embed).value;
    FoldSound(data, KeyOf(lower), RenderAs(typeLabel), embed);
    forall k | 0 <= k < |b.ids|
      ensures var j := Origin(data, KeyOf(lower), HashKey(b.ids[k]));
              && j < |data|
              && Derive(data[j], lower).value.value.id == b.ids[k]
              && b.metadatas[k] == Meta(typeLabel, Derive(data[j], lower).value.value.title)
              && Text(typeLabel, data[j], b.metadatas[k].title) == Ok(b.documents[k])
    {
      assert FromOrigin(data, KeyOf(lower), RenderAs(typeLabel), b, k);
    }
    forall j | 0 <= j < |data| && Derive(data[j], lower).Ok? && Derive(data[j], lower).value.Some?
      ensures HashKey(Derive(data[j], lower).value.value.id) in Keys(Collect(data, typeLabel, lower, embed).value.ids)
    {
      FoldComplete(data, KeyOf(lower), RenderAs(typeLabel), embed, j);
    }
  }

  // ------------------------------------------------ unwrapping a dataset

  /** What the main block does with a loaded dataset (lines 153-166). */
  datatype Unwrapped =
    | Records(items: seq<Json>)   // a list, possibly found under a key of a dict
    | NoMainList                  // a dict with no list-valued key: skipped with a warning
    | NotAList                    // neither a dict nor a list: format error

  /** The value of the first list-valued key, in key order. */
  function FirstList(fields: seq<Field>): (r: Option<seq<Json>>)
    ensures r.None? <==> forall i :: 0 <= i < |fields| ==> !fields[i].val.JList?
    ensures r.Some? ==> exists i :: 0 <= i < |fields| && fields[i].val == JList(r.value) &&
                                    forall j :: 0 <= j < i ==> !fields[j].val.JList?
  {
    if fields == [] then None
    else if fields[0].val.JList? then Some(fields[0].val.items)
    else
      var r := FirstList(fields[1..]);
      assert forall i :: 0 < i < |fields| ==> fields[1..][i - 1] == fields[i];
      if r.Some? then
        var i :| 0 <= i < |fields[1..]| && fields[1..][i].val == JList(r.value) &&
                 forall j :: 0 <= j < i ==> !fields[1..][j].val.JList?;
        assert fields[i + 1].val == JList(r.value);
        r
      else r
  }

  function MainList(data: Json): (r: Unwrapped)
    ensures data.JList? ==> r == Records(data.items)
    ensures data.JObj? ==> (r == NoMainList <==> FirstList(data.fields).None?)
    ensures data.JObj? && FirstList(data.fields).Some? ==> r == Records(FirstList(data.fields).value)
    ensures !data.JList? && !data.JObj? ==> r == NotAList
  {
    match data
    case JObj(fields) =>
      (match FirstList(fields)
       case Some(items) => Records(items)
       case None => NoMainList)
    case JList(items) => Records(items)
    case _ => NotAList
  }

  /** The unwrap loop: walk the keys in order and stop at the first whose
      value is a list. */
  method Unwrap(data: Json) returns (r: Unwrapped)
    ensures r == MainList(data)
  {
    if data.JObj? {
      var fields := data.fields;
      var i := 0;
      while i < |fields|
        invariant 0 <= i <= |fields|
        invariant forall j :: 0 <= j < i ==> !fields[j].val.JList?
      {
        if fields[i].val.JList? {
          assert FirstList(fields) == Some(fields[i].val.items) by {
            var found := FirstList(fields);
            if found.Some? {
              var k :| 0 <= k < |fields| && fields[k].val == JList(found.value) &&
                       forall j :: 0 <= j < k ==> !fields[j].val.JList?;
              assert k == i;
            }
          }
          return Records(fields[i].val.items);
        }
        i := i + 1;
      }
      return NoMainList;
    } else if data.JList? {
      return Records(data.items);
    } else {
      return NotAList;
    }
  }

  /** What one dataset file leads to once loaded. */
  datatype FileOutcome = StructureWarning | FormatError | Ingested(outcome: Outcome<Meta>)

  /** The body of the main loop for one loaded file: unwrap, then ingest. */
  method IngestDataset(data: Json, typeLabel: string, lower: char -> char, embed: string -> Vector)
    returns (r: FileOutcome)
    ensures MainList(data) == NoMainList ==> r == StructureWarning
    ensures MainList(data) == NotAList ==> r == FormatError
    ensures MainList(data).Records? ==>
              r == Ingested(ToOutcome(Collect(MainList(data).items, typeLabel, lower, embed)))
  {
    var unwrapped := Unwrap(data);
    match unwrapped
    case NoMainList => r := StructureWarning;
    case NotAList => r := FormatError;
    case Records(items) =>
      var outcome := IngestCollection(items, typeLabel, lower, embed);
      r := Ingested(outcome);
  }
}
