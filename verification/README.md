# Anvaya CRM front-end core, modelled in Dafny

Anvaya CRM is a React single-page application for tracking sales leads.
Each lead has a status (New, Contacted, Qualified, Proposal Sent, Closed).
It may also have a sales agent, a closing date and an estimated time to close.
This project models the logic the screens compute from the leads and agents
they fetch, and the state changes of the screens' forms:

- `CrmModel` (`crm_model.dfy`) holds the shared vocabulary:
  - leads, agent references and agents;
  - counting leads by status;
  - the exact form of `Math.round(part / whole * scale)`.
- `Reports` (`reports.dfy`) models the Reports screen:
  - the status histogram, built by a loop over the leads in insertion order;
  - the leads closed in the last week;
  - per-agent performance, where a lead matches an agent by populated document or by bare identifier;
  - the pipeline count and the pipeline value.
- `Dashboard` (`dashboard.dfy`) models the Dashboard cards:
  - the five fixed status counts;
  - the conversion rate and the revenue figure;
  - the pie chart data.
- `StatusStyle` (`status_style.dfy`) models the CSS class derived from a status. The Dashboard status cards and the lead list badges use the same class.
- `SalesAgentManagement` (`sales_agents.dfy`) models the per-agent lead statistics. This screen matches a lead only through a populated agent document.
- `FilterBar` (`filter_bar.dfy`) is a class. It holds the filter state and emits the cleaned filters.
- `LeadForm` (`lead_form.dfy`) is a class for the create/edit form:
  - the prefill from a fetched lead;
  - the change handlers;
  - the submit payload, the request and the outcome.
- `LeadDetails` (`lead_details.dfy`) is a class for the lead page:
  - classifying a load failure;
  - adding a comment, with the blank-draft check of `String.prototype.trim`;
  - which view is rendered.

Several representation choices are worth knowing:

- Times are integers in milliseconds.
- An optional field is an `Option`. `None` is an absent, null or unparseable value. Where the source tests a field for truthiness, the model also tests for `0` or `""` inside `Some`, except `closedAt`, whose numeric 0 is `None` (see Left out).
- Rates are exact integers:
  - the Dashboard conversion rate is in whole percent;
  - the Reports agent conversion rate is in hundredths of a percent, the two decimals `toFixed(2)` prints.
- Requests to the server are split at the `await`. A `Begin…` method returns the request, and a `Finish…` method takes the outcome as a parameter.

Two behaviours of the code are easy to mistake for something else:

- The Reports screen's status histogram is over the statuses that occur, in order of first occurrence, not over the five fixed statuses. For statuses that are ordinary object keys, every lead is counted. The fixed five-status table is the Dashboard's `leadCounts`, modelled as `Dashboard.LeadCounts`. Its counts add up to the number of leads only when every status is one of the five.
- In the Reports agent table, an agent without leads gets the number 0 as its conversion rate, not a formatted string.

## Model

| member | source | states |
|---|---|---|
| CrmModel.CountStatus | anvaya-crm/src/components/Dashboard.js:42-47 | the number of leads with a given status (`filter(...).length`) never exceeds the number of leads |
| CrmModel.CountStatusAppend | anvaya-crm/src/components/Reports.js:214-216 | counting a status over two lists joined together gives the sum of the two counts |
| CrmModel.CountStatusExtremes | anvaya-crm/src/components/Dashboard.js:47 | a status count equals the number of leads iff every lead has that status, and is 0 iff none does |
| CrmModel.CountIn | anvaya-crm/src/components/Dashboard.js:41-48 | the number of leads whose status is one of a list of labels is at most the number of leads |
| CrmModel.CountInSplit | anvaya-crm/src/components/Dashboard.js:41-48 | when the first label does not occur again, its count plus the count of the remaining labels is the count of all labels |
| CrmModel.CountInAll | anvaya-crm/src/components/Dashboard.js:41-48 | the leads counted under a list of labels are all the leads iff every lead's status is in the list |
| CrmModel.CountInNone | anvaya-crm/src/components/Dashboard.js:41-48 | with no labels, no lead is counted |
| CrmModel.SumOfCounts | anvaya-crm/src/components/Reports.js:152-162 | per-label counts over distinct labels add up to the number of leads whose status is among the labels |
| CrmModel.RoundedRatio | anvaya-crm/src/components/Dashboard.js:63-66 | `Math.round(part / whole * scale)` for 0 ≤ part ≤ whole: the integer nearest the exact ratio with halves rounded up, at most `scale`, 0 for no part or no whole, `scale` for a full part |
| Reports.Distinct | anvaya-crm/src/components/Reports.js:158 | the keys of an object filled in list order: each string of the list exactly once and nothing else |
| Reports.DistinctStep | anvaya-crm/src/components/Reports.js:153 | one more lead adds its status to the end of the keys exactly when it is new |
| Reports.UnseenCountZero | anvaya-crm/src/components/Reports.js:153 | a status that is not yet a key has been counted zero times (`acc[status] \|\| 0`) |
| Reports.CountsStep | anvaya-crm/src/components/Reports.js:153 | one more lead adds one to its status's count and changes no other count |
| Reports.SameKeysStep | anvaya-crm/src/components/Reports.js:153 | assigning a key keeps the object's keys equal to the key list, which grows only by a new key |
| Reports.TallySeen | anvaya-crm/src/components/Reports.js:152-155 | reducing a lead whose status is already a key keeps the object equal to the histogram of the leads seen so far |
| Reports.TallyNew | anvaya-crm/src/components/Reports.js:152-155 | reducing a lead with a new status appends the key with count 1 and keeps the object equal to the histogram of the leads seen so far |
| Reports.TallyStep | anvaya-crm/src/components/Reports.js:152-155 | one step of the reduce preserves the invariant that the object is the histogram of the prefix reduced so far |
| Reports.TalliedAll | anvaya-crm/src/components/Reports.js:152-155 | once the whole list is reduced, the object's keys are the distinct statuses and each value is that status's count |
| Reports.StatusCountMap | anvaya-crm/src/components/Reports.js:152-155 | the `statusCounts` reduce: keys in first-occurrence order and exactly the statuses present, each mapped to its count |
| Reports.ValuesInKeyOrder | anvaya-crm/src/components/Reports.js:162 | `Object.values`: the values listed in key order, aligned with the keys |
| Reports.HistogramTotal | anvaya-crm/src/components/Reports.js:157-162 | the chart labels are exactly the statuses that occur, and the data add up to the number of leads |
| Reports.StatusCounts | anvaya-crm/src/components/Reports.js:152-162 | labels have no duplicates and are exactly the statuses that occur; data is aligned with the labels, holds each label's count, and sums to the number of leads |
| Reports.ClosedLastWeek | anvaya-crm/src/components/Reports.js:183-191 | the result is an order-preserving sub-list of the leads; a lead is in it iff it is Closed and has a valid `closedAt` no earlier than `now` minus one week |
| Reports.ClosedSince | anvaya-crm/src/components/Reports.js:187-190 | the filter's test: the lead is Closed and has a valid `closedAt` no earlier than the cutoff |
| Reports.ClosedLastWeekAppend | anvaya-crm/src/components/Reports.js:186-191 | filtering two lists joined together gives the two filtered lists joined together, so each qualifying occurrence is kept |
| Reports.ClosedLastWeekOneMore | anvaya-crm/src/components/Reports.js:186-198 | one more lead adds itself to `closedLastWeek`, and one to its length, iff it was Closed within the week; otherwise nothing changes |
| Reports.ClosedLastWeekAtMostClosed | anvaya-crm/src/components/Reports.js:186-191 | there are never more leads closed last week than Closed leads |
| Reports.LeadsOfAgent | anvaya-crm/src/components/Reports.js:208-212 | the order-preserving sub-list of leads whose agent reference is the agent's populated document or its bare identifier |
| Reports.AssignedTo | anvaya-crm/src/components/Reports.js:210-211 | a reference matches an agent iff it is a populated document or a bare identifier carrying the agent's identifier |
| Reports.LeadsOfAgentAppend | anvaya-crm/src/components/Reports.js:208-212 | the agent filter over two lists joined together is the two filtered lists joined together, so each matching occurrence is kept |
| Reports.OtherAgentNotCounted | anvaya-crm/src/components/Reports.js:208-221 | a lead assigned to another agent or to none, inserted anywhere, changes neither the agent's matched leads nor its performance row |
| Reports.PerformanceOf | anvaya-crm/src/components/Reports.js:207-227 | the agent row keeps the agent's name; total is the number of matched leads and closed counts the Closed ones (closed ≤ total); the rate is 0 without leads, otherwise the nearest hundredth of a percent, at most 100.00 |
| Reports.AgentPerformance | anvaya-crm/src/components/Reports.js:207 | one performance row per agent, in agent order |
| Reports.AgentTotalCountsBothForms | anvaya-crm/src/components/Reports.js:210-211 | a lead naming the agent by bare identifier raises the agent's total by one, exactly as a populated reference does |
| Reports.PipelineCount | anvaya-crm/src/components/Reports.js:266 | "Leads in Pipeline" plus the number of Closed leads is the number of leads |
| Reports.PipelineCountComplement | anvaya-crm/src/components/Reports.js:266 | the open leads and the Closed leads together make up every lead |
| Reports.OpenLeads | anvaya-crm/src/components/Reports.js:251 | the order-preserving sub-list of leads whose status is not Closed |
| Reports.OpenLeadsAppend | anvaya-crm/src/components/Reports.js:251 | filtering the open leads distributes over joining two lists |
| Reports.Contribution | anvaya-crm/src/components/Reports.js:252 | `timeToClose * 100 \|\| 0`: 100 times the days to close, and 0 exactly when that is missing or 0 |
| Reports.PipelineValue | anvaya-crm/src/components/Reports.js:250-252 | `pipelineValue` is 0 when every lead is Closed; with the lemmas below, it is additive, ignores Closed leads and leads without a number, and grows by 100·t for an open lead |
| Reports.SumContributions | anvaya-crm/src/components/Reports.js:252 | the `.reduce` over the open leads: 0 when no lead contributes anything |
| Reports.SumContributionsAppend | anvaya-crm/src/components/Reports.js:252 | the reduce's sum distributes over joining two lists |
| Reports.PipelineValueAppend | anvaya-crm/src/components/Reports.js:250-252 | the pipeline value of two lists joined together is the sum of their values |
| Reports.PipelineValueIgnores | anvaya-crm/src/components/Reports.js:250-252 | inserting a Closed lead, or an open lead without a numeric `timeToClose`, anywhere leaves the pipeline value unchanged |
| Reports.PipelineValueOpenLead | anvaya-crm/src/components/Reports.js:250-252 | an open lead with `timeToClose` t adds 100·t to the pipeline value |
| Reports.PipelineValueNonNegative | anvaya-crm/src/components/Reports.js:250-252 | without negative `timeToClose` values the pipeline value is not negative |
| Dashboard.LeadCounts | anvaya-crm/src/components/Dashboard.js:41-48 | five entries in the fixed pipeline order, each the number of leads with that status |
| Dashboard.Counts | anvaya-crm/src/components/Dashboard.js:83 | the counts of the entries, aligned with them |
| Dashboard.LeadCountsSum | anvaya-crm/src/components/Dashboard.js:41-48 | the five counts add up to at most the total shown beside them, and to exactly the total iff every lead has one of the five statuses |
| Dashboard.ConversionRate | anvaya-crm/src/components/Dashboard.js:63-67 | 0 for no leads, otherwise the whole percentage nearest Closed/total (halves up); at most 100, 0 when nothing is Closed, 100 when everything is |
| Dashboard.Revenue | anvaya-crm/src/components/Dashboard.js:73-75 | 2500 for each Closed lead, so never more than 2500 times the number of leads |
| Dashboard.PieData | anvaya-crm/src/components/Dashboard.js:109-112 | one slice per status in pipeline order, named by the status, valued by its count |
| StatusStyle.LowerChar | anvaya-crm/src/components/Dashboard.js:87 | `toLowerCase` on one character: the result is never an upper-case ASCII letter, and a character changes iff it is one, moving to its lower-case letter |
| StatusStyle.ToLower | anvaya-crm/src/components/Dashboard.js:87 | lower-casing keeps the length and maps every character |
| StatusStyle.ToLowerAppend | anvaya-crm/src/components/Dashboard.js:87 | lower-casing distributes over joining two strings |
| StatusStyle.IndexOfSpace | anvaya-crm/src/components/Dashboard.js:88 | `indexOf(" ")`: the position of the first space, with the length standing for "none" |
| StatusStyle.IndexOfSpaceAt | anvaya-crm/src/components/Dashboard.js:88 | a space with no space before it is the one `indexOf` finds |
| StatusStyle.ReplaceFirstSpace | anvaya-crm/src/components/Dashboard.js:88 | `replace(" ", "-")`: same length, non-spaces kept, a space becomes a dash iff no space comes before it |
| StatusStyle.StatusClass | anvaya-crm/src/components/LeadList.js:65-67 | the class suffix of a status has the status's length; which class each status gets is stated by SingleWordStatusClass and TwoWordStatusClass |
| StatusStyle.SingleWordStatusClass | anvaya-crm/src/components/Dashboard.js:86-88 | a status whose lower-case form has no space is only lower-cased |
| StatusStyle.SingleWordPipelineClasses | anvaya-crm/src/components/Dashboard.js:86-88 | New, Contacted, Qualified and Closed get the classes new, contacted, qualified and closed |
| StatusStyle.ReplaceJoiningSpace | anvaya-crm/src/components/Dashboard.js:88 | two words joined by a space, the first without a space, become the two words joined by a dash |
| StatusStyle.TwoWordStatusClass | anvaya-crm/src/components/Dashboard.js:86-88 | a two-word status gets its lower-cased words joined by a dash |
| StatusStyle.ProposalSentClass | anvaya-crm/src/components/Dashboard.js:86-88 | "Proposal Sent" gets the class "proposal-sent" |
| SalesAgentManagement.AgentLeads | anvaya-crm/src/components/SalesAgentManagement.js:32 | the order-preserving sub-list of leads whose agent is the agent's populated document |
| SalesAgentManagement.PopulatedBy | anvaya-crm/src/components/SalesAgentManagement.js:32 | `l.salesAgent?._id === agentId`: the reference is a populated document with the agent's identifier |
| SalesAgentManagement.GetLeadStats | anvaya-crm/src/components/SalesAgentManagement.js:31-38 | total is the number of the agent's leads (at most all leads); closed counts the Closed ones and never exceeds total |
| SalesAgentManagement.SubsequenceLength | anvaya-crm/src/components/SalesAgentManagement.js:32 | a filtered list is never longer than the list |
| SalesAgentManagement.AgentLeadsAppend | anvaya-crm/src/components/SalesAgentManagement.js:32 | the agent filter distributes over joining two lists |
| SalesAgentManagement.RawReferenceNotCounted | anvaya-crm/src/components/SalesAgentManagement.js:32 | a lead that names the agent only by bare identifier, or names no agent or another one, changes no statistics wherever it is inserted |
| SalesAgentManagement.AtMostReportsTotal | anvaya-crm/src/components/SalesAgentManagement.js:32 | this screen's total never exceeds the Reports screen's total for the same agent, and equals it iff no lead names the agent by bare identifier |
| SalesAgentManagement.AgentsWithIdAtMostOne | anvaya-crm/src/components/SalesAgentManagement.js:58-59 | among agents with distinct identifiers, at most one has a given identifier |
| SalesAgentManagement.AgentsWithIdZero | anvaya-crm/src/components/SalesAgentManagement.js:58-59 | no agent has an identifier that none of them carries |
| SalesAgentManagement.TotalsShown | anvaya-crm/src/components/SalesAgentManagement.js:58-65 | the sum of the "Leads" figures on the agent cards; its properties are the three lemmas below |
| SalesAgentManagement.TotalsShownFirstLead | anvaya-crm/src/components/SalesAgentManagement.js:58-59 | removing the first lead lowers the sum of the cards' totals by the number of agents that lead is populated with |
| SalesAgentManagement.TotalsShownAtMostLeads | anvaya-crm/src/components/SalesAgentManagement.js:58-59 | for agents with distinct identifiers, the totals on the cards add up to at most the number of leads |
| SalesAgentManagement.TotalsShownNoLeads | anvaya-crm/src/components/SalesAgentManagement.js:58-59 | with no leads, every card's total is 0 |
| FilterBar.Clean | anvaya-crm/src/common/FilterBar.js:36-38 | a key is kept iff it is present with a non-empty value, and kept keys keep their values |
| FilterBar.FilterBarState.constructor | anvaya-crm/src/common/FilterBar.js:5-11 | the five filter keys, all empty |
| FilterBar.FilterBarState.HandleFilterChange | anvaya-crm/src/common/FilterBar.js:31-41 | the state becomes the old state with one key replaced; what is emitted is the cleaned new state, whose keys are filter keys |
| FilterBar.FilterBarState.ClearFilters | anvaya-crm/src/common/FilterBar.js:43-53 | every key back to empty, and the empty object emitted, which is what cleaning the new state gives |
| FilterBar.CleanEmptyFilters | anvaya-crm/src/common/FilterBar.js:43-53 | cleaning the all-empty state gives the empty object |
| FilterBar.ClearingOneKey | anvaya-crm/src/common/FilterBar.js:31-38 | choosing "All" for a key removes exactly that key from what is emitted |
| FilterBar.SettingOneKey | anvaya-crm/src/common/FilterBar.js:31-38 | choosing a value for a key sets exactly that entry of what is emitted |
| FilterBar.ChangeIdempotent | anvaya-crm/src/common/FilterBar.js:31-38 | making the same change twice gives the state and the emitted filters of making it once |
| FilterBar.EmittedKeys | anvaya-crm/src/common/FilterBar.js:36-38 | only filter keys are ever emitted |
| LeadForm.OrDefault | anvaya-crm/src/components/LeadForm.js:28-34 | `v \|\| d`: the default exactly when the value is absent, empty or the default itself; otherwise the value |
| LeadForm.PrefillAgent | anvaya-crm/src/components/LeadForm.js:30 | `salesAgent?.id \|\| salesAgent \|\| ""`: the document's `id` when truthy; the whole document when it has none; a plain string as it is; otherwise empty |
| LeadForm.Prefill | anvaya-crm/src/components/LeadForm.js:27-35 | each form field is the loaded value, or the initial form's default when the loaded value is falsy |
| LeadForm.PrefillOfEmptyLead | anvaya-crm/src/components/LeadForm.js:11-35 | a lead with every field falsy prefills exactly the initial form |
| LeadForm.OptionValues | anvaya-crm/src/components/LeadForm.js:50 | the options' values, aligned with the options |
| LeadForm.SelectedValues | anvaya-crm/src/components/LeadForm.js:52-56 | the selected values form an order-preserving sub-list of the option values |
| LeadForm.SelectedValuesMembers | anvaya-crm/src/components/LeadForm.js:52-56 | a value is among the selected tags iff some selected option carries it |
| LeadForm.SelectedValuesAppend | anvaya-crm/src/components/LeadForm.js:52-56 | selecting from two option lists joined together gives the two selections joined together |
| LeadForm.SelectedTags | anvaya-crm/src/components/LeadForm.js:50-56 | the loop pushes exactly the selected values, in option order |
| LeadForm.ParsedTimeToClose | anvaya-crm/src/components/LeadForm.js:72 | a number loaded with the lead goes into the payload unchanged; typed text goes through `parseInt` |
| LeadForm.ToSubmitData | anvaya-crm/src/components/LeadForm.js:66-74 | every field is copied from the form, except `timeToClose`, which is parsed |
| LeadForm.UnchangedEditResubmits | anvaya-crm/src/components/LeadForm.js:27-35 | the payload `handleSubmit` builds from an untouched edit form carries each truthy loaded field; a missing status or priority becomes its default; a `timeToClose` of 0 or none becomes `parseInt("")` |
| LeadForm.IsEdit | anvaya-crm/src/components/LeadForm.js:8 | `Boolean(id)`: edit mode iff the route id is present and non-empty |
| LeadForm.NavigationTarget | anvaya-crm/src/components/LeadForm.js:81 | `/leads/<id>` when editing, `/leads` when creating |
| LeadForm.NavigationDistinguishesModes | anvaya-crm/src/components/LeadForm.js:81 | an edit never navigates where a creation does, and two edits navigate to the same page iff they edit the same lead |
| LeadForm.LeadFormState.constructor | anvaya-crm/src/components/LeadForm.js:10-19 | the initial form: empty fields, status New, no tags, priority Medium, not loading |
| LeadForm.LeadFormState.LoadForEdit | anvaya-crm/src/components/LeadForm.js:21-35 | in edit mode, the fetched lead replaces the form with its prefill |
| LeadForm.LeadFormState.HandleInputChange | anvaya-crm/src/components/LeadForm.js:44-47 | the named field takes the input's value and every other field, tags included, is unchanged |
| LeadForm.LeadFormState.HandleTagChange | anvaya-crm/src/components/LeadForm.js:49-57 | the tags become the selected values in option order, and nothing else changes |
| LeadForm.LeadFormState.BeginSubmit | anvaya-crm/src/components/LeadForm.js:60-80 | loading is set; the request is an update of the edited lead or a creation, carrying the converted form |
| LeadForm.LeadFormState.FinishSubmit | anvaya-crm/src/components/LeadForm.js:81-92 | a save navigates to the mode's target without alert; a failure does not navigate and alerts "Error: " plus the server's message, or the fallback text when there is none; loading is cleared either way |
| LeadDetails.LoadErrorMessage | anvaya-crm/src/components/LeadDetails.js:33-37 | the not-found message iff the status is 404, the generic message otherwise, including when no response came |
| LeadDetails.IsJsWhitespace | anvaya-crm/src/components/LeadDetails.js:48 | the code points `trim` strips: the ECMAScript WhiteSpace and LineTerminator characters |
| LeadDetails.TrimStart | anvaya-crm/src/components/LeadDetails.js:48 | a suffix of the string that starts with a non-whitespace character, with only whitespace removed before it |
| LeadDetails.TrimEnd | anvaya-crm/src/components/LeadDetails.js:48 | a prefix of the string that ends with a non-whitespace character, with only whitespace removed after it |
| LeadDetails.Trim | anvaya-crm/src/components/LeadDetails.js:48 | `s.trim()`: the slice of the string with only whitespace before and after it, and, when not empty, starting and ending with a non-whitespace character |
| LeadDetails.TrimEmptyIffBlank | anvaya-crm/src/components/LeadDetails.js:48 | `!s.trim()` holds iff every character is JavaScript whitespace, the empty string included |
| LeadDetails.AuthorOf | anvaya-crm/src/components/LeadDetails.js:54 | the author sent is the lead's agent identifier iff the lead is loaded and its agent is a populated document; otherwise no author is sent |
| LeadDetails.AgentLabel | anvaya-crm/src/components/LeadDetails.js:175 | the agent's name when populated and non-empty, otherwise "Unassigned" |
| LeadDetails.AuthorLabel | anvaya-crm/src/components/LeadDetails.js:242 | the comment author's name when present and non-empty, otherwise "System" |
| LeadDetails.LeadDetailsState.constructor | anvaya-crm/src/components/LeadDetails.js:8-13 | no lead, no comments, an empty draft, loading, not submitting, no error |
| LeadDetails.LeadDetailsState.CurrentView | anvaya-crm/src/components/LeadDetails.js:66-114 | the loading view iff loading; the error view, showing the error text, iff not loading and an error is set; otherwise "Lead not found" iff no lead is held, and the details of the held lead when one is |
| LeadDetails.LeadDetailsState.SubmitEnabled | anvaya-crm/src/components/LeadDetails.js:278 | the submit button is enabled iff nothing is being submitted and the draft holds a non-whitespace character |
| LeadDetails.LeadDetailsState.Load | anvaya-crm/src/components/LeadDetails.js:15-44 | without an id, the invalid-id error and nothing fetched; a failed lead fetch sets the classified error; a failed comments fetch sets the lead and the error; success sets the lead and the comments, missing comments becoming empty; loading ends in every case, and any failure leads to the error view showing that error's text, so a 404 shows the not-found message |
| LeadDetails.LeadDetailsState.EditComment | anvaya-crm/src/components/LeadDetails.js:262-263 | the draft takes the typed text |
| LeadDetails.LeadDetailsState.BeginSubmitComment | anvaya-crm/src/components/LeadDetails.js:46-55 | a blank draft sends nothing and changes nothing; otherwise submitting is set and the request carries the lead id, the draft and the author |
| LeadDetails.LeadDetailsState.FinishSubmitComment | anvaya-crm/src/components/LeadDetails.js:56-63 | success appends the created comment after the earlier ones and clears the draft; failure keeps comments and draft and sets the error, so the page shows the error view; submitting ends either way, and the lead and the loading flag are untouched |

## Left out

- Network I/O is not modelled. The requests of `anvaya-crm/src/services/api.js` are outcomes passed in as parameters (`LoadResult`, `SubmitResult`, `SaveOutcome`). The two awaited requests of the lead page's load are one outcome.
- The fetch plumbing of the Dashboard, Reports, Sales Agent Management and filter bar screens is not modelled: their `loading`/`error` flags and their "Loading…" views. Nor is the filter bar's agent list.
- The Dashboard's `pipelineData` and `closedByAgentData` are fetched but never used, so they are not modelled.
- Floating point is not modelled. Rates are exact rational roundings with halves going up. `Math.round` and `toFixed(2)` on binary doubles can differ from this at exact halves.
- Number formatting is not modelled: `toFixed`'s string result and `toLocaleString` (Revenue, Pipeline Value).
- Reports.ClosedLastWeek: the cutoff is `now` minus exactly seven days of milliseconds. `setDate(getDate() - 7)` in local time differs by an hour across a daylight-saving change.
- Reports.ClosedLastWeek: a numeric `closedAt` of 0 is falsy, so it is `None`, as is a value that does not parse as a date. An ISO string for the epoch is truthy and valid, so it is `Some(0)` and counts like any other time.
- Reports.StatusCountMap: JavaScript lists integer-like object keys (e.g. a status "1") first and in numeric order. The model keeps insertion order for every key.
- Reports.StatusCountMap: statuses are assumed to be ordinary object keys. In the source, `acc[lead.status] || 0` reads inherited `Object.prototype` members: a status such as `constructor` or `toString` starts from a function, so its count becomes a string, and a status `__proto__` never becomes a key, so that lead is not counted.
- Reports.AssignedTo: an agent always has an identifier in the model. In the source, an agent without `_id` matches, through `undefined === undefined`, every lead whose `salesAgent` is missing, a bare identifier (a string has no `_id`) or a document without `_id`.
- SalesAgentManagement.PopulatedBy: for the same reason, an agent without `_id` is not modelled. In the source it would match every lead whose `salesAgent` is missing, a bare identifier or a document without `_id`.
- Reports.PerformanceOf: the conversion rate is the number of hundredths, not the string `toFixed` builds.
- Reports.Contribution: `timeToClose` is an integer or `None`. String values that JavaScript would coerce, and fractional days, are not modelled.
- StatusStyle.ToLower: `toLowerCase` is modelled on the ASCII letters only. Other letters are left as they are.
- The "View All" link's `encodeURIComponent(status)` and the lead list's `priority.toLowerCase()` badge are not modelled.
- LeadForm.ParsedTimeToClose: `parseInt` on typed text is a function parameter, not a model of JavaScript's number parsing.
- LeadForm.LeadFormState.LoadForEdit: a failed edit-mode fetch only logs to the console, so it is not modelled.
- LeadForm.LeadFormState.BeginSubmit: the browser's `required` and `min="1"` validation of the form is not modelled, nor are the inputs and the submit button disabled while a save is in progress. The model therefore builds a request for forms the browser would never submit, such as a fresh form with an empty name, or an edit whose time to close is empty.
- LeadDetails.LeadDetailsState.BeginSubmitComment: the comment form is rendered only when the lead's details are shown, and its box and button are disabled while a comment is being submitted. The model requires neither, so it can start a submission while loading, in the error view, with no lead held, or during another submission.
- LeadForm.LeadFormState.FinishSubmit: a server `error` field that is not a string would be stringified by the template literal. The model takes it as text.
- LeadDetails.LeadDetailsState.Load: re-running the effect when the route id changes is not modelled.
- LeadDetails.LeadDetailsState.FinishSubmitComment: the comment is appended to the current list. The source appends to the list captured when the submission began. The two differ only if the comments change while a request is in flight.
- Rendering details, routing, `window.alert` and `console.error` are outside the model, as is the styling of every component.
- These modules are not part of this model: `App.js`, `Settings.js`, `Sidebar.js`, `StatusCard.js`, `AddNewLead.js` and `AddAgentForm.js`, plus the chart components.
