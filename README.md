# Lead-prospecting pipeline: the deterministic core

This project models, in Dafny, the deterministic logic inside a lead-generation
tool. The tool uses a crew of LLM agents to search the web for agencies, read
their sites, pull out contact details and write qualified leads to CSV. A small
web front end starts runs and reports their progress. The browser, the agents
and the web server are left out. What is modelled is the logic they wrap:

- **Search selection** (`web_search.dfy`, `WebTools.search_urls`). It reads
  the first five result blocks, skips blocks that fail and social-network
  URLs, and returns nothing when the search itself fails.
- **Content flags** (`web_content.dfy`, `WebTools.get_website_content`). It
  reads the first about/services/clients section, and sets the AI and
  enterprise flags by plain substring search in the lower-cased body text.
- **Contact extraction** (`web_contacts.dfy`, `WebTools.extract_contact_info`),
  over page snapshots instead of a browser:
  - social links from the homepage and its footers;
  - the contact-page search (terms in order, exact match before contains
    match, then six fallback paths);
  - per page: the email placeholder filter, phones, social links, and the
    address rule (postcode paragraphs only when there are no address
    elements; trimmed text longer than ten characters);
  - the final first-seen-order de-duplication.
- **Payloads and bullet text** (`payloads.dfy`). This is the loosely typed
  agent output both CSV writers accept, and the `- **Key**: value` fallback
  parser they share. web_tools.py folds all bullets into one record; main.py
  starts a new record at each blank line.
- **`WebTools.save_to_csv_file`** (`web_csv.dfy`):
  - type dispatch;
  - the Search Query recovered from the file name;
  - the 13-column writer with `extrasaction="raise"`;
  - the errors, all re-raised as `ValueError`.
- **`save_task`** (`task_csv.dfy`):
  - type dispatch with `return False` on failure;
  - the legacy pipe-separated `"Contact Info"` parser;
  - the five-column fallback to the record's own fields;
  - the 12-column writer.
- **The web front end** (`app_filenames.dfy`, `app_status.dfy`):
  - the safe file name built from the query, and the round trip back to the
    query that web_tools.py recovers;
  - the job-status dictionary as a class;
  - the `/run` admission check, the start, the two terminal transitions, and
    the mapping from crew progress steps to agent and task strings.

`wrappers.dfy` holds `Option` and `Result`. `str.dfy` holds the Python string
operations the code relies on, restricted to ASCII: `lower`, `title`, `strip`,
`split`, `join`, `replace`, `in`, `startswith` and slicing. Each comes with
the lemmas the proofs need.

Where the code differs from what its documentation says it does, the model
follows the code:

- The AI keyword test is a plain substring test, so "email" counts as
  mentioning AI. It is not a word-boundary test.
- `save_task` writes 12 columns and no Search Query column.
- `save_to_csv_file` folds every bullet line of a text into one record. Only
  `save_task` splits records at blank lines.
- In the legacy `"Contact Info"` string, `part.replace(tag, "")` removes every
  occurrence of the tag, not just the leading one.
- A non-empty parsed legacy value beats the record's own field. The record's
  own field is used only when the legacy value is empty.
- An empty bullet fallback is signalled differently by the two writers:
  `ValueError` in `save_to_csv_file`, `return False` in `save_task`.
- `save_task` writes any iterable it is given, so a tuple of dicts is saved
  and returns True. `save_to_csv_file` raises for anything that is not a
  dict, a list or a text.
- A bare output file name with no directory part makes `os.makedirs("")`
  fail. `save_to_csv_file` then raises and `save_task` returns False.
- The agent name taken from a progress text stops at the next `"Agent:"` as
  well as at the newline, because it is field 1 of `split("Agent:")`.

## Model

| member | source | states |
|---|---|---|
| WebSearch.SearchUrls | web_tools.py:53-92 | the results are exactly those of the first five blocks, in block order, that have a title, link and snippet and whose URL is not blocked; no results when the page cannot be searched |
| WebSearch.KeptBound | web_tools.py:66-82 | never more results than blocks read, and no result whose lower-cased URL contains a blocked word |
| WebSearch.KeptMembers | web_tools.py:66-85 | a result is returned exactly when some block yields it |
| WebSearch.KeptConcat | web_tools.py:66-82 | results keep block order: the results of two runs of blocks are the results of each, one after the other |
| WebSearch.SearchShape | web_tools.py:63-92 | at most 5 results, none from a social-network URL, each from one of the first five blocks; `[]` when the search fails |
| WebSearch.BlockedIgnoresCase | web_tools.py:79-80 | a URL is blocked exactly when its lower-cased form contains one of the five words; capitalisation never matters |
| WebSearch.FirstBlocks | web_tools.py:66 | the blocks read are the first five, or all of them when there are fewer |
| WebContent.ContentFlags | web_tools.py:104-136 | each flag holds exactly when one of its keywords occurs as a substring of the lower-cased body; each section is the first match's text or "" |
| WebContent.UnloadedPage | web_tools.py:140-142 | a page that cannot be loaded yields no content |
| WebContent.EmailCountsAsAi | web_tools.py:131-132 | any body mentioning "email" sets the AI flag, because "ai" is found as a plain substring |
| WebContent.FlagsIgnoreCase | web_tools.py:104-136 | the content is the same whatever the capitalisation of the body |
| WebContacts.ExtractContactInfo | web_tools.py:144-286 | the result is the homepage social links, then the footers' links, then each candidate page that loads, all de-duplicated; None when the homepage does not load |
| WebContacts.ContactLists.constructor | web_tools.py:149-155 | the five lists start empty |
| WebContacts.ContactLists.AddSocialLinks | web_tools.py:164-171 | each non-empty href is appended to the LinkedIn list if it names linkedin.com, else to the Instagram list if it names instagram.com; nothing else changes |
| WebContacts.ContactLists.AddContactPage | web_tools.py:228-272 | a loaded page appends its non-placeholder emails, all its phones, its social links and its accepted addresses |
| WebContacts.ContactLists.AddAddresses | web_tools.py:269-272 | each address text is trimmed and appended only when longer than ten characters; the other lists are untouched |
| WebContacts.PostcodeParagraphs | web_tools.py:260-267 | the paragraphs with a postcode, in order |
| WebContacts.ContactLists.RemoveDuplicates | web_tools.py:278-280 | each list becomes its first-seen-order de-duplication |
| WebContacts.FindContactLink | web_tools.py:186-207 | the loop over contact terms returns the search outcome: the href of the first hit, term by term, exact match first |
| WebContacts.FirstHit | web_tools.py:196-204 | the index found is the first anchor whose lower-cased text equals (or contains) the term; none when no anchor does |
| WebContacts.SocialsSorted | web_tools.py:164-183 | social hrefs only extend the two social lists; a LinkedIn entry names linkedin.com, an Instagram entry names instagram.com and not linkedin.com, so no href goes to both |
| WebContacts.OnlyLetsTalkBroken | web_tools.py:187-207 | "let's talk" is the one term whose XPath literal is broken by its quote; its query always fails and is skipped |
| WebContacts.ExactIsContained | web_tools.py:196-202 | an anchor whose text equals a term also contains it |
| WebContacts.LinkSearchMisses | web_tools.py:192-210 | no link is found exactly when no usable term is contained in any anchor's lower-cased text |
| WebContacts.LinkSearchHits | web_tools.py:192-207 | a found link is the href of an anchor containing a usable term, and no earlier usable term is contained in any anchor |
| WebContacts.ExactMatchWins | web_tools.py:195-205 | for a term that some anchor matches exactly, the first exact match is the link even if an earlier anchor only contains the term |
| WebContacts.CandidateUrls | web_tools.py:209-220 | with no (or an empty) link the pages are url+/contact, /contact-us, /get-in-touch, /connect, /about, /about-us in that order; otherwise only the link |
| WebContacts.EmailsFiltered | web_tools.py:232-236 | no kept email contains "example", "domain" or "email" in any capitalisation; an email is kept exactly when matched and not a placeholder |
| WebContacts.AddressesLongEnough | web_tools.py:269-272 | every kept address is longer than ten characters and is the trimmed text of one of the sources |
| WebContacts.ParagraphsIgnoredWithAddressElements | web_tools.py:255-267 | postcode paragraphs do not matter on a page that has address elements |
| WebContacts.UnloadedPagesAddNothing | web_tools.py:222-276 | a list of candidate pages none of which loads adds nothing |
| WebContacts.UnloadedPageSkipped | web_tools.py:222-276 | one candidate page that fails to load, anywhere in the list, adds nothing and does not stop the pages after it: the result is that of the list without it |
| WebContacts.CandidatesSnoc | web_tools.py:222-276 | visiting one more candidate adds that page's contributions to what was gathered when it loads, and nothing when it fails |
| WebContacts.AddPageAppends | web_tools.py:222-276 | a page only appends: every list gathered before is a prefix of the list after |
| WebContacts.DedupFacts | web_tools.py:278-280 | the de-duplicated list has no duplicates and holds exactly the values of the original |
| WebContacts.DedupExtends | web_tools.py:278-280 | first-seen order: de-duplicating a longer list only appends to the de-duplication of its prefix |
| WebContacts.DedupKeeps | web_tools.py:278-280 | a list without duplicates is unchanged |
| WebContacts.ExtractionOutcome | web_tools.py:144-160 | None exactly when the homepage fails; otherwise every list is duplicate-free and holds exactly the values gathered |
| Payloads.MergeBulletsLastWins | web_tools.py:337-343 | a key is in the bullet record exactly when some bullet line has it, and its value is that of the last such line |
| Payloads.BulletRecordsNonEmpty | main.py:182-194 | main.py never emits an empty record |
| Payloads.RecordsUnionIsMerge | main.py:180-194 | main.py's records folded together give web_tools.py's single record for the same text |
| Payloads.SingleGroup | main.py:182-194 | text without a blank line gives one group: main.py then yields web_tools.py's record, or nothing without a bullet |
| Payloads.GroupsWithoutBlank | main.py:182-194 | text without a blank line is a single group of all its lines |
| Payloads.GroupStep | main.py:182-192 | after one more line, a blank line closes the record being built (kept only when non-empty) and any other line is read into it |
| Payloads.CloseLastGroup | main.py:193-194 | at the end of the text the record being built is kept when non-empty |
| Payloads.ClassifyShape | main.py:183-192 | a stripped line is blank exactly when empty, and it is a bullet exactly when it starts with `- **` and contains `**:`, with the key and value taken as the code does |
| Payloads.ReadLine | web_tools.py:338-343 | reading a line sets `record[key] = value` for a bullet and leaves the record alone otherwise |
| Payloads.KindsSnoc | main.py:182-183 | one more line of text adds exactly its own kind at the end: each line is classified on its own, in order |
| WebCsv.ParseBullets | web_tools.py:335-343 | the loop builds the record of every bullet line, later keys overwriting earlier ones |
| WebCsv.DispatchPayload | web_tools.py:321-349 | a dict and the JSON text of a dict become one row, a JSON list is used as given, non-JSON text becomes its bullet record or a ValueError, other non-lists raise |
| WebCsv.WriteRows | web_tools.py:352-360 | rows are written in input order with the Search Query filled, up to the first row that raises |
| WebCsv.FillSearchQuery | web_tools.py:355-359 | the row written is a copy of the record with the Search Query set to the derived query exactly when it is missing or falsy |
| WebCsv.WriteAllWidth | web_tools.py:352-360 | every row written has one cell per header field |
| WebCsv.SaveToCsvFile | web_tools.py:288-368 | the file written (header of the 13 fields, one 13-cell row per record) and the ValueError raised |
| WebCsv.NonEmptyWords | web_tools.py:318 | no empty word survives |
| WebCsv.RowCells | web_tools.py:353-360 | a written row has exactly 13 cells |
| WebCsv.WriteAllPrefix | web_tools.py:355-360 | the rows written are the rows of the items before the first failing one, in order |
| WebCsv.CompleteRowUnchanged | web_tools.py:356-360 | a complete record with a Search Query is written unchanged |
| WebCsv.StructuredRoundTrip | web_tools.py:322-360 | a list of complete records reaches the file unchanged, in values and order |
| WebCsv.SearchQueryColumn | web_tools.py:313-359 | a row whose Search Query is missing or falsy carries the query derived from the file name; a row with one keeps its own |
| WebCsv.OneRecordOneRow | web_tools.py:322-323 | a dict becomes exactly one row, or raises before writing any |
| WebCsv.BulletFallback | web_tools.py:333-347 | non-JSON text is written as its single bullet record, or raises ValueError before the file is opened when there is no bullet |
| WebCsv.MappingIsOneRow | web_tools.py:322-330 | a dict and the JSON text of a dict are written identically |
| TaskCsv.ParseBulletRecords | main.py:180-194 | the loop yields one record per blank-line-separated group with a bullet, keeping a trailing record |
| TaskCsv.ParseContactInfo | main.py:234-251 | the loop sets each of the five values from the last segment starting with its tag, trimmed, and leaves it "" otherwise |
| TaskCsv.BuildRow | main.py:231-274 | the 12 cells: each contact column takes the legacy value when non-empty, else the record's own field, else "" |
| TaskCsv.BulletInput | main.py:178-199 | non-JSON text gives its records, or the `return False` path when there are none |
| TaskCsv.DispatchData | main.py:163-199 | the shape check: dict, list, JSON object or array accepted; other JSON rejected; non-JSON text by its records; any other iterable (a tuple of dicts, say) goes to the writing loop as it is, and a non-iterable object reaches the loop only to fail there |
| TaskCsv.TextData | main.py:166-199 | a text that parses to a JSON object is one row and to an array its items; other JSON returns False; non-JSON text gives its bullet records, or False when there are none |
| TaskCsv.SaveTask | main.py:158-282 | the value returned and the file written, as TaskSave states |
| TaskCsv.WriteRows | main.py:226-275 | rows are written in order until an element is not a dict |
| TaskCsv.LastTagged | main.py:241-251 | the index found is a segment starting with the tag |
| TaskCsv.TagsExclusive | main.py:242-251 | a segment starts with at most one of the five tags |
| TaskCsv.LastTaggedIsLast | main.py:241-251 | the value is read from the last segment starting with the tag, and there is none exactly when no segment starts with it |
| TaskCsv.FieldRoundTrip | main.py:243-251 | a value carried by the only segment opened by its tag is read back exactly |
| TaskCsv.FormatSplits | main.py:240 | a formatted legacy string splits back into its five segments |
| TaskCsv.ContactRoundTrip | main.py:240-251 | a legacy string carrying five stripped values, each free of `|` and of its own tag, parses back into exactly those values |
| TaskCsv.AbsentContactInfo | main.py:231-271 | without "Contact Info" every contact column is the record's own field or "" |
| TaskCsv.DefaultPathHasDirectory | main.py:202-207 | the default output path always has a directory part |
| TaskCsv.WriteTaskRowsPrefix | main.py:229-275 | the rows written are the rows of the items before the first non-dict, in order |
| TaskCsv.WriteTaskRowsAll | main.py:226-275 | the writer finishes exactly when every element is a dict, and then writes one row per element, in order |
| TaskCsv.TaskSaveResult | main.py:158-282 | True exactly when the data has a usable shape, the path has a directory part and every row is a dict; the file then holds the 12-column header and one row per record, in order |
| TaskCsv.NonContainerJsonRejected | main.py:170-177 | JSON that is neither object nor array returns False and writes nothing |
| TaskCsv.WritersAgree | main.py:261-274 | for a record without "Contact Info", web_tools.py's row is its Search Query cell followed by exactly main.py's row |
| TaskCsv.SharedCells | web_tools.py:297-311 | past the Search Query column, web_tools.py writes the record's own fields |
| AppFilenames.Filter | app.py:61 | only allowed characters survive, and the result is no longer than the query |
| AppFilenames.FilterConcat | app.py:61 | filtering keeps the surviving characters in their original order |
| AppFilenames.FilterMembers | app.py:61 | a character survives exactly when it occurs in the query and is alphanumeric, space, `-` or `_` |
| AppFilenames.FilterAllowed | app.py:61 | a query of allowed characters passes the filter unchanged |
| AppFilenames.SafeQueryShape | app.py:61-62 | the safe query has only letters, digits, `-` and `_`, at most 50 characters; position by position it is the filtered, right-trimmed query with spaces made `_` |
| AppFilenames.SafeOfWords | app.py:61-62 | words of letters and digits joined by single spaces (at most 50 characters) become the same words joined by `_` |
| AppFilenames.BasenameOfOutput | app.py:65 | the base name of the downloads path is the file name |
| AppFilenames.StemBeforeMarker | app.py:64 | the text before the first `_leads_` of the file name is the safe query when no word after the first is "leads" |
| AppFilenames.QueryRoundTrip | app.py:61-65 | a query of letter-and-digit words with single spaces, at most 50 characters, and no later word equal to "leads", is recovered exactly from the file name by web_tools.py |
| AppFilenames.LeadsWordIsLost | app.py:64 | the query "top leads" is recovered as "top" |
| AppStatus.JobStatus.constructor | app.py:38-44 | the status starts idle with every entry None |
| AppStatus.JobStatus.UpdateStatus | app.py:125-154 | the agent and task entries become those the step determines; nothing else changes |
| AppStatus.AgentUpdate | app.py:134-140 | the agent entry becomes the step's role, else the name found after "Agent:" in its text, else stays as it was |
| AppStatus.TaskDescription | app.py:142-154 | the current-task entry is the first line of the step's task description (with the tool label when a tool is named), else the thought, else the text, else "Processing task" |
| AppStatus.JobStatus.RunLeadGeneration | app.py:50-118 | the start resets the status, each crew step updates it, then the success or the error transition ends the run |
| AppStatus.JobStatus.Run | app.py:174-181 | rejected with the status unchanged while a run is active; otherwise the run proceeds |
| AppStatus.StepsKeepRunEntries | app.py:125-154 | steps never touch the running flag, the error or the download path |
| AppStatus.TransitionsConsistent | app.py:38-117 | no transition leaves an error next to a download path, or a running job with either; a finished run is never running |
| AppStatus.RunOutcome | app.py:104-117 | a run ends not running, with a download path exactly when the crew finished and the file exists (the downloads URL of the file name), otherwise with the error message in the error and task entries |
| AppStatus.AgentRoleFirst | app.py:135-136 | a step's own agent role wins over any name in its text |
| AppStatus.AgentBetween | app.py:137-140 | the agent taken from a text is the trimmed text between the first "Agent:" and the next newline |
| AppStatus.MarkerSplit | app.py:139 | the piece after the first "Agent:" is the text that follows it, up to the next "Agent:" |
| AppStatus.LineBeforeNewline | app.py:139 | a line free of "Agent:" and newlines is read back whole as the first line |
| AppStatus.ToolLabelAt | app.py:145-146 | the tool label keeps the length, shows `_` as a space and capitalises exactly the letters that start a run of letters |
| AppStatus.TaskFromDescription | app.py:143-148 | the current-task entry is the trimmed first line of the description, plus " (Using <label>)" when a tool is named |
| AppStatus.TaskFallbacks | app.py:149-154 | without a task: the thought, else the text, each cut to 100 characters, else "Processing task" |

## Left out

- Selenium is left out: driver set-up, page loading, waiting, XPath and CSS
  evaluation, and `cleanup`. Pages are snapshots, given as inputs.
- A contact page that fails part-way is not modelled. The model treats a
  page as either loaded or failed, so its contributions are all or nothing.
- The email, phone and postcode regular expressions are left out. Their
  matches, and the postcode verdict per paragraph, are inputs.
- `json.loads` internals are left out. The parse result is an input paired
  with the text.
- `dict()` of a list of pairs is not modelled. Only dicts count as rows.
- CSV quoting and encoding are not modelled. A row is its cells in header
  order.
- File and clock effects are inputs: `open`, `os.path.exists`, and
  `datetime.now` for the timestamp.
- Of `os.makedirs`, only the failure on a bare file name is kept.
- The CrewAI agents, tasks, crew and `kickoff` are left out. The crew's
  progress steps, its error and the file's presence are inputs.
- The FastAPI and uvicorn plumbing is left out: the static mount, templates,
  CORS, `/status`, `/download` and the `HTTPException` values.
- The race between the `is_running` check and its setting is left out. The
  state machine is sequential.
- Python's Unicode semantics of `isalnum`, `lower`, `title`, `strip` and
  `isspace` are not modelled; the model uses ASCII only.
- AppStatus.JobStatus.UpdateStatus: the exception handler at app.py:161-167
  is not modelled. A step attribute of the wrong type (a non-string thought
  or text, a `None` text) is outside the model.
- AppStatus.JobStatus.RunLeadGeneration: the call to `create_tasks` at
  app.py:74 is not reconciled with its one-parameter signature. Failures
  before `kickoff` are not modelled.
- The debug printing is left out, both `process_step` and the coloured
  console output.
