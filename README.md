# SkillSage ingestion and prompt assembly, modelled in Dafny

SkillSage is a career advisor. Career, skill and FAQ records go into a
vector store. At question time the stored documents closest to the question
are retrieved and a generative model answers from them. This project models
the deterministic core of that pipeline. It proves what that core does with
well-formed records. It also proves what it does with these malformed inputs:

- records or fields that are not dicts;
- a `skill_name` that is not a string;
- a skills, use-case or career value that is a string or a dict (Python joins its characters or keys);
- lists that hold non-strings;
- values that cannot be iterated or hashed;
- tools that cannot be sorted.

What the model covers, file by file:

- **ingest_data.py**:
  - `ingest_collection` derives an id and a title for each record. It
    skips records that have no id and keeps only the first record for each
    id. It renders a career, skill or FAQ text and `{type, title}`
    metadata, and upserts the four parallel lists when at least one id
    was collected.
  - The main block unwraps a dataset that is a dict around its list.
- **rag_pipeline.py**:
  - `ingest_from_json` does the same for skill files. Records are keyed by
    `skill_name`, default "Unknown Skill", and get category, difficulty
    and demand metadata.
  - `get_user_context` renders a user profile.
  - `query_advisor` builds the knowledge-base block and the prompt.
- **insert.py**: takes the union of every record's `tools_and_technologies`
  and sorts it. It makes one `{"tool_name": t}` document per tool and
  inserts them only when there is at least one.

Files:

- `py_json.dfy` (module `PyJson`) models the JSON values the scripts
  load. It also models the Python built-ins the scripts apply to them:
  - `dict.get`, `in`, iteration and truthiness;
  - `str()`, `str.join`, `str.lower` and `str.replace`;
  - hashing, where `True == 1` and `False == 0`.

  Exceptions become `Result.Err` with a `PyError`.
- `batching.dfy` (module `Batching`) holds the batch-building loop that
  both ingestion functions share:
  - `Fold` is the loop as a function;
  - `BuildBatch` is the loop as a method, with four lists and a `seen`
    set;
  - the lemmas give completeness, first-wins, order, parallel lists and
    distinct ids.

  The loop takes the record-specific parts (id derivation and rendering) as
  function values.
- `ingest_data.dfy`, `rag_pipeline.dfy` and `insert_tools.dfy` model the
  three scripts.

The embedding model, the vector-store query and the text generator are
function parameters, and so is the profile lookup's result. File reading
and printing are not modelled.

## Model

| member | source | states |
|---|---|---|
| PyJson.Lookup | ingest_data.py:43 | a dict lookup finds a value exactly when the key is present, and the value found is stored under that key |
| PyJson.Get | ingest_data.py:43 | `d.get(k, default)` is the stored value when `k` is present and the default otherwise |
| PyJson.DictGet | ingest_data.py:67 | `.get` on a dict behaves as `dict.get`; on any other value it raises AttributeError |
| PyJson.Elements | insert.py:25 | iteration yields a list's items, a string's one-character strings, a dict's keys in order; other values raise TypeError |
| PyJson.Contains | ingest_data.py:41 | `k in v` is key membership for a dict, a substring test for a string, element equality for a list, and the TypeError "not iterable" otherwise |
| PyJson.HashKey | ingest_data.py:59 | set membership identifies `True` with `1` and `False` with `0` and every other hashable value only with itself |
| PyJson.NatToDecimal | ingest_data.py:85 | `str()` of a natural number is a non-empty string of digits: "0" for zero, otherwise with no leading zero |
| PyJson.LeadingDigitPositive | ingest_data.py:85 | (helper for CanonicalDecimal) a digit string with a non-zero first digit has a positive value |
| PyJson.CanonicalDecimal | ingest_data.py:85 | the printed form is unique: every digit string without a leading zero (or "0") is exactly what is printed for its value |
| PyJson.DigitValue | ingest_data.py:85 | each printed digit stands for its value |
| PyJson.DecimalRoundTrip | ingest_data.py:85 | reading back the decimal digits printed for `n` gives `n` |
| PyJson.IntToDecimal | ingest_data.py:85 | `str()` of an int: "0" for zero; otherwise digits with no leading zero whose value is the magnitude, preceded by a minus sign when negative |
| PyJson.PyStr | ingest_data.py:70-104 | what an f-string inserts: a string unchanged, None, True, False, the decimal digits of an int; a list is its items' reprs joined by ", " in brackets, and a dict its `'key': repr` pairs joined by ", " in braces |
| PyJson.PyRepr | ingest_data.py:106 | inside a container a string is shown between quotes; any other value as its `str()` |
| PyJson.Truthy | ingest_data.py:87 | a value is false for `or` exactly when it is None, False, 0, "", [] or {} |
| PyJson.Join | ingest_data.py:76 | joining nothing gives "", and the result starts with the first part and is as long as the parts plus one separator between each two |
| PyJson.JoinPartAt | ingest_data.py:76 | part k of a join starts after the k parts before it and the k separators between them |
| PyJson.JoinSepAt | ingest_data.py:76 | a separator follows directly after every part but the last |
| PyJson.JoinLayout | rag_pipeline.py:84-85 | the whole layout of `sep.join(parts)`: the parts in their order, one separator between each two, and the text ends with the last part, so the order of the joined skills, use cases and careers is kept |
| PyJson.JoinValue | ingest_data.py:76 | `', '.join(v)` joins a list of strings, the characters of a string or the keys of a dict; it raises TypeError for a list holding a non-string and for a value that cannot be iterated |
| PyJson.Split | rag_pipeline.py:151 | splitting (the reading half of the newline join) always yields at least one line |
| PyJson.SplitNoSeparator | rag_pipeline.py:151 | a string without the separator splits into itself alone |
| PyJson.SplitAtSeparator | rag_pipeline.py:151 | splitting at the first separator yields the text before it followed by the split of the rest |
| PyJson.SplitJoin | rag_pipeline.py:151 | joining parts that do not contain the separator and splitting again gives the parts back |
| PyJson.JoinContainsPart | rag_pipeline.py:120 | every part of a join is a substring of the result |
| PyJson.JoinContainsParts | rag_pipeline.py:151 | all parts of a join are substrings of the result |
| PyJson.Lower | ingest_data.py:51 | `lower()` keeps the length and maps each character |
| PyJson.Replace | ingest_data.py:51 | `replace(" ", "_")` keeps the length, turns each space into an underscore and leaves other characters alone |
| PyJson.OccursBetween | rag_pipeline.py:154-170 | (helper for the f-string and join layouts) a piece of a concatenation occurs at the offset given by the length of what precedes it |
| PyJson.OccursExtended | rag_pipeline.py:154-170 | (helper for the f-string and join layouts) an occurrence is kept when text is appended |
| PyJson.OccursWithin | rag_pipeline.py:120 | (helper for the f-string and join layouts) an occurrence inside a piece that itself occurs in a text is an occurrence in that text |
| PyJson.PartAt | rag_pipeline.py:154-170 | every piece of an assembled string occurs at the total length of the pieces before it |
| PyJson.ConcatLength | rag_pipeline.py:154-170 | an assembled string is as long as its pieces together |
| PyJson.OffsetPrefix | rag_pipeline.py:154-170 | where a piece starts depends only on the pieces before it |
| PyJson.OffsetTail | rag_pipeline.py:154-170 | the offsets after the first part are the offsets within the rest plus the first part's length |
| PyJson.OccursAdjacent | rag_pipeline.py:118-123 | (helper for the f-string and join layouts) two occurrences that touch are one occurrence of the two texts joined |
| PyJson.AdjacentParts | ingest_data.py:70-78 | two neighbouring pieces of an assembled string occur together where the first starts |
| PyJson.Layout | ingest_data.py:70-78 | an assembled string is as long as its pieces and each piece starts where the pieces before it end |
| PyJson.JoinedWithin | rag_pipeline.py:120 | when a join occurs inside a text, each of its parts does too |
| Batching.Keys | ingest_data.py:35 | the seen-set holds exactly the hash keys of the collected ids |
| Batching.Step | ingest_data.py:41-117 | one iteration: a derivation that raises ends the loop with that exception; no id, or an id equal to one already seen, changes nothing; an unhashable id raises TypeError; after a finished iteration the record's id is among the ids |
| Batching.KeysAppend | ingest_data.py:63 | adding an id to the seen-set and appending it to `ids` keep the two in step |
| Batching.Fold | ingest_data.py:39-117 | the collected lists are parallel, no longer than the input, hold distinct ids, and each embedding is the embedding of its document |
| Batching.ToOutcome | ingest_data.py:120-132 | an exception ends ingestion; otherwise the upsert happens exactly when at least one id was collected |
| Batching.BuildBatch | ingest_data.py:29-117 | the loop over four in-place lists and a seen-set returns exactly the batch, or the first exception, of the loop's specification |
| Batching.Origin | ingest_data.py:58-61 | the first record whose id equals a given id, or none |
| Batching.FoldErrorPersists | ingest_data.py:39 | once a prefix of the records raises, the whole loop raises that exception |
| Batching.FoldKeysEvery | ingest_data.py:41-56 | a loop that finished derived an id (or none) from every record without raising |
| Batching.FoldSameLast | ingest_data.py:39 | two inputs that end in the same record and agree before it give the same batch |
| Batching.FoldSkipsUnkeyed | ingest_data.py:54-56 | a record that yields no id, anywhere in the input, changes nothing |
| Batching.StepExtends | ingest_data.py:114-117 | one iteration either leaves the batch unchanged or appends exactly one entry to each of the four lists, the new embedding being the embedding of the new document |
| Batching.FoldComplete | ingest_data.py:58-63 | every record that yields an id has that id in the batch |
| Batching.AbsentKeyHasNoOrigin | ingest_data.py:58-63 | an id missing from the batch is yielded by no record |
| Batching.OriginOfPrefix | ingest_data.py:58-61 | an id already seen before the last record keeps its first record when the last record is added |
| Batching.KeptFromOrigin | ingest_data.py:58-61 | an entry built before the last record keeps its place, its first record and its contents |
| Batching.AppendedFromOrigin | ingest_data.py:58-63 | an entry appended for the last record has that record as its first record |
| Batching.FoldSound | ingest_data.py:58-117 | entry k comes from the first record yielding its id: it has that record's exact id and its rendered document and metadata; entries keep input order |
| IngestData.SeedId | ingest_data.py:51-52 | a seed id is "seed_" followed by the lower-cased name with every space made an underscore, so it contains no space after the prefix |
| IngestData.ContainsAny | ingest_data.py:41-50 | the chain of `k in item` tests is true exactly when some identifying key is found, and raises TypeError on a value that is not a container |
| IngestData.Derive | ingest_data.py:41-56 | a dict yields no id exactly when it has none of `career_id`, `skill_id`, `faq_id`, `skill_name`, and raises exactly when it reaches a non-string `skill_name` (AttributeError on `.lower`); a non-dict is skipped exactly when none of the `in` tests succeeds, and raises TypeError when it is not a container |
| IngestData.LearningTime | ingest_data.py:81-85 | a dict learning time gives its `proficiency` (default "Variable"), anything else its `str()` |
| IngestData.RelatedCareers | ingest_data.py:87 | `career_applications` when it is truthy, otherwise `careers_using_this` (default empty) |
| IngestData.CareerText | ingest_data.py:66-78 | raises exactly when `salary_range`, `job_market` or `education_requirements` is present but not a dict, or `required_skills` cannot be joined; otherwise the seven sentences (title, category, description, `salary_range.mid_level`, `job_market.demand`, the joined skills, `education_requirements.minimum`, with their defaults) follow each other |
| IngestData.SkillText | ingest_data.py:80-96 | raises exactly when `use_cases` or the related careers cannot be joined; otherwise the seven sentences follow each other, the learning time and the related careers chosen as LearningTime and RelatedCareers say |
| IngestData.FaqText | ingest_data.py:98-103 | never raises: question, answer and category follow each other |
| IngestData.Text | ingest_data.py:66-106 | a career, skill or FAQ record must be a dict and gets its kind's text; any other type label gives `str(item)` |
| IngestData.Render | ingest_data.py:108-112 | rendering fails exactly when the text fails; the metadata is `{type: type_label, title: title}` |
| IngestData.Collect | ingest_data.py:39-117 | every metadata record of a finished loop carries the collection's type label |
| IngestData.FoldKinds | ingest_data.py:108-117 | the loop only appends metadata typed with the collection's label |
| IngestData.StepKinds | ingest_data.py:108-117 | one iteration keeps every metadata record typed with the collection's label |
| IngestData.IngestCollection | ingest_data.py:26-132 | the outcome is that of the loop's specification; an upsert carries parallel lists of distinct ids, at least one, at most one per record, all typed with the collection's label |
| IngestData.IdPrecedence | ingest_data.py:41-49 | `career_id` wins over `skill_id`, which wins over `faq_id`, each with its own title field and default |
| IngestData.SeedFallback | ingest_data.py:50-53 | a record with only a string `skill_name` gets the seed id and the raw name as title |
| IngestData.UnidentifiedContributesNothing | ingest_data.py:54-56 | removing a record without an identifying field from anywhere in the input leaves the outcome unchanged |
| IngestData.BatchContents | ingest_data.py:58-117 | entry k comes from the first record with id `ids[k]`: that exact id, its text, `{type, title}` metadata and the embedding of its text; every identified record's id is present; the entries follow the input order of their first records |
| IngestData.FirstList | ingest_data.py:153-158 | the value of the first list-valued key in key order, or none when no key holds a list |
| IngestData.MainList | ingest_data.py:153-166 | a list is ingested as it is; a dict gives the value of its first list-valued key, and is skipped exactly when it has none; a value that is neither list nor dict is a format error |
| IngestData.Unwrap | ingest_data.py:153-161 | the key-by-key loop stops at the first list-valued key and returns what MainList specifies |
| IngestData.IngestDataset | ingest_data.py:152-166 | a dict without a list gives a structure warning, a non-list a format error, a list the outcome of ingesting it |
| RagPipeline.SchemaList | rag_pipeline.py:49-55 | a dict with "skills" gives that entry, a list gives itself, anything else is not recognized |
| RagPipeline.SkillKey | rag_pipeline.py:68 | a skill's id and title are its `skill_name` (default "Unknown Skill"); `.get` on a non-dict raises |
| RagPipeline.SkillText | rag_pipeline.py:77-86 | raises exactly when `careers_using_this` or `use_cases` cannot be joined; otherwise the eight sentences (name, category, description, difficulty, learning time, demand, careers, use cases, with their defaults) follow each other |
| RagPipeline.SkillMetaOf | rag_pipeline.py:93-97 | category, difficulty and demand are the stored values, or General, Medium and Medium when absent |
| RagPipeline.SkillRender | rag_pipeline.py:77-97 | the metadata is the record's category, difficulty and demand with defaults General, Medium, Medium |
| RagPipeline.Collect | rag_pipeline.py:67-97 | the loop only finishes when every record is a dict |
| RagPipeline.Ingest | rag_pipeline.py:44-111 | not recognized exactly when the value is neither a list nor a dict with "skills"; a recognized value that cannot be iterated raises; otherwise the outcome of the loop over its elements, which upserts only when some record was kept |
| RagPipeline.IngestFromJson | rag_pipeline.py:44-108 | the method's outcome is the specification's; an upsert has parallel lists of at least one distinct id |
| RagPipeline.SkillBatchContents | rag_pipeline.py:67-97 | entry k comes from the first record with that `skill_name`: its raw name as id, defaulted metadata and text; every record's name is present; the entries follow the input order of their first records |
| RagPipeline.SkillRendered | rag_pipeline.py:77-97 | a rendered skill is a dict whose metadata and text are the ones built from its fields |
| RagPipeline.UnknownSkillCollapses | rag_pipeline.py:68-74 | records without `skill_name` all collapse into exactly one "Unknown Skill" entry |
| RagPipeline.GetUserContext | rag_pipeline.py:113-123 | the generic sentence is returned exactly when no profile (or an empty one) is found; rendering raises exactly when the skills cannot be joined; otherwise the text is that of the profile with its joined skills |
| RagPipeline.ProfileText | rag_pipeline.py:118-123 | the header, name, ". Skills: ", skills, ". Experience: ", experience, ". Goal: ", goal and final period follow each other, and the text is never the generic sentence |
| RagPipeline.HeadedNotGeneric | rag_pipeline.py:114-116 | a text that starts "User Profile: " is not the generic sentence |
| RagPipeline.ProfileFields | rag_pipeline.py:118-123 | a found profile names the user (default User) right after "User Profile: ", its skills joined by ", " right after ". Skills: ", then its experience and goal, each absent one as "Not specified" |
| RagPipeline.ProfileLayout | rag_pipeline.py:118-123 | where the nine pieces of a profile's text sit |
| RagPipeline.SkillsInProfile | rag_pipeline.py:120 | the joined skills sit in the fourth place of a profile's text |
| RagPipeline.ProfileDefaults | rag_pipeline.py:118-123 | a profile with none of the four fields renders as "User Profile: User. Skills: . Experience: Not specified. Goal: Not specified." |
| RagPipeline.ProfileListsSkills | rag_pipeline.py:120 | every skill of a profile whose skills are strings appears in the context |
| RagPipeline.KbContext | rag_pipeline.py:147-151 | nothing retrieved gives the fixed fallback; otherwise document k starts after the k documents before it and their newlines, a newline follows every document but the last, and the text ends with the last document, whatever the documents contain; newline-free documents are recovered by splitting on newlines |
| RagPipeline.Lines | rag_pipeline.py:151 | the layout of the retrieved documents joined with newlines, in retrieval order |
| RagPipeline.BuildPrompt | rag_pipeline.py:154-170 | the profile header, the profile, the knowledge-base header, the knowledge base, the question header, the question and the instructions each occur at the total length of the pieces before them, so they appear in that order with nothing in between |
| RagPipeline.QueryAdvisor | rag_pipeline.py:125-174 | a profile error propagates; otherwise the answer is the generator's reply to the prompt built from the profile, the three documents requested for the embedded question, and the question |
| RagPipeline.EmptyRetrievalFallback | rag_pipeline.py:147-149 | with nothing retrieved the prompt's knowledge-base block is the fallback sentence |
| InsertTools.ToolsOf | insert.py:27 | a record's tools default to none; a non-dict record raises AttributeError |
| InsertTools.AllHashableMeans | insert.py:28 | every tool of a list is hashable exactly when the recursive check says so |
| InsertTools.KeyedCons | insert.py:28 | a tool list names a key when its head or its tail does |
| InsertTools.AddAll | insert.py:28 | `set.update` raises exactly when some tool is unhashable; otherwise the set is the old set plus every tool, still without duplicates |
| InsertTools.Collected | insert.py:24-28 | the loop can only raise AttributeError for a non-dict record, TypeError for tools that cannot be iterated, or TypeError for an unhashable tool |
| InsertTools.ListedSnoc | insert.py:25-28 | a tool is listed by the records when an earlier record or the last one lists it |
| InsertTools.CollectedStep | insert.py:25-28 | one more record: the loop finishes exactly when it finished before and the new record's tools can be collected |
| InsertTools.CollectedSucceedsPrefix | insert.py:25-28 | the loop finishes exactly when every record, taken from the end, can be collected |
| InsertTools.AllCollectableMeans | insert.py:25-28 | every record can be collected, taken from the end, exactly when each one can |
| InsertTools.CollectedSucceeds | insert.py:24-28 | the loop finishes exactly when every record is a dict whose tools are iterable and hashable |
| InsertTools.CollectedDistinct | insert.py:24-28 | the collected set holds no two equal tools |
| InsertTools.CollectedMembers | insert.py:24-28 | the collected set holds exactly the tools some record lists |
| InsertTools.StrLt | insert.py:31 | string `<` as `sorted` applies it: a proper prefix comes before the longer string |
| InsertTools.Less | insert.py:31 | `<` only orders two strings or two numbers |
| InsertTools.Orderable | insert.py:31 | `sorted` finishes on two or more values only when they are all strings or all numbers |
| InsertTools.StrLtIrreflexive | insert.py:31 | no string is less than itself |
| InsertTools.StrLtTransitive | insert.py:31 | string order is transitive |
| InsertTools.StrLtTotal | insert.py:31 | of two distinct strings one is less than the other |
| InsertTools.LessTransitive | insert.py:31 | the order `sorted` uses is transitive |
| InsertTools.LessTotal | insert.py:31 | two distinct comparable tools are ordered one way or the other |
| InsertTools.LessIrreflexive | insert.py:31 | no tool is less than itself |
| InsertTools.SortedCons | insert.py:31 | a tool below every tool of a sorted list can go in front of it |
| InsertTools.InsertSorted | insert.py:31 | inserting a new comparable tool into a sorted list keeps it strictly sorted and adds exactly that tool |
| InsertTools.SortKeys | insert.py:31 | `sorted` of distinct comparable tools is strictly ascending and a permutation of its input |
| InsertTools.SortedUnique | insert.py:31 | two strictly sorted lists with the same elements are equal |
| InsertTools.SetOrderIrrelevant | insert.py:23-31 | the sorted tools do not depend on the order in which the set holds them |
| InsertTools.Docs | insert.py:31 | one `{"tool_name": t}` document per tool, in order |
| InsertTools.Script | insert.py:23-34 | the script raises exactly when the file is not iterable, the loop raises or the tools cannot be sorted; `insert_many` is only called with at least one document |
| InsertTools.CollectedErrorPersists | insert.py:25-28 | once a prefix of the records raises, the whole loop raises that exception |
| InsertTools.CollectTools | insert.py:24-28 | the loop filling the set record by record returns exactly the specified set, or the first exception |
| InsertTools.InsertScript | insert.py:23-34 | the set, the sort and the insert decision give exactly the specified outcome |
| InsertTools.ScriptInserts | insert.py:23-34 | the inserted documents are strictly ascending and name exactly the tools some record lists, each once |
| InsertTools.ScriptInsertsNothing | insert.py:34 | nothing is inserted exactly when every record is readable and none lists a tool |

## Left out

- Floating-point JSON numbers: numbers are integers. `str()` of a float and float/int comparison in `sorted` are not modelled.
- `repr()` escaping: a string inside a container is printed between single quotes with no escaping and no switch to double quotes.
- Duplicate keys in a JSON object: objects are modelled as json.load leaves them, with each key once and the first occurrence found by lookups.
- `str.lower()` is a per-character function parameter: characters whose lower-case form is longer than one character are not modelled.
- The embedding model, the vector-store query (`kb_collection.query`) and the generator (`generate_content`) are parameters. The model does not enforce that the store returns at most `n_results` documents.
- The MongoDB profile lookup is a parameter: the found document, or none.
- File reading, `json.load` failures, missing files, printing and the loop over the four dataset files are not modelled. IngestData.IngestDataset models the body of that loop for one loaded file.
- Exceptions from the upserts themselves (ingest_data.py:129-130, and rag_pipeline.py:100-105 whose exception the handler at rag_pipeline.py:110-111 catches) and from `insert_many` (BulkWriteError, insert.py:40-47) are not modelled. The model ends at the call that is made and its arguments.
- The unique index on `tool_name` and the duplicate counts reported by insert.py are database behaviour and are not modelled.
- InsertTools.CollectTools: the set stores each tool's equality key. A boolean tool is therefore stored as `1` or `0`, where Python keeps whichever of the equal values came first.
- InsertTools.Script: `sorted` is modelled as raising TypeError exactly when the set holds two or more values and two of them are not both strings or both numbers. A sort that finishes must have compared values across any two such classes, since no value is comparable with both.
- Client set-up in `__init__`, main.py and check_db.py are outside this model.
