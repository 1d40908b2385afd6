# LTI Gradebook Services, modelled in Dafny

A model of the core of Moodle's LTI Gradebook Services plugin
(`ltiservice_gradebookservices`). The plugin lets an external LTI tool read and
write a course gradebook through five JSON-LD REST resources:

- **LineItem**: `/{context_id}/lineitems/{item_id}/lineitem`. It answers GET, PUT and DELETE on one grade item.
- **LineItems**: `/{context_id}/lineitems`. A GET lists the course's items; a POST creates one.
- **Result**: `/{context_id}/lineitems/{item_id}/results/{result_id}/result`. A GET reads one user's result.
- **Score**: `/{context_id}/lineitems/{item_id}/scores/{result_id}/score`. A PUT records one user's score and a DELETE clears it.
- **Scores**: `/{context_id}/lineitems/{item_id}/scores`. A GET lists the recorded scores; a POST records one.

It also models what these share in the service class:

- the lazily built resource list;
- the ownership-scoped item lookup, with its permissive and strict policies;
- the translation of a submitted score into a gradebook update;
- the three serialisers, for line items, results and scores.

## Layout

| file | module | what it holds |
|---|---|---|
| `php_values.dfy` | `PhpValues` | Decoded JSON values, and the PHP 7 semantics the handlers depend on: `isset`, `empty`, `intval`, `floatval`, `strval`, `is_numeric`, loose `==`, `round($x, 5)` (which gradelib's float helpers use), and an exception that carries a status code. |
| `grade_store.dfy` | `GradeStore` | The gradebook tables as values: grade items, the service's ownership rows, grade rows, users, the LTI instance to tool proxy relation, and a log of `grade_update` calls. There is also a `Gradebook` class whose methods perform the writes in place. |
| `resource_base.dfy` | `ResourceBase` | The request, the collaborators' answers (`Env`), content-type negotiation, the listing of container elements between separators, and the `Response` object that `execute` fills in. |
| `gradebook_service.dfy` | `GradebookService` | `get_lineitem` and `get_lineitems` as filters, the gate every item resource applies, `set_grade_item`, and `item_to_json`, `result_to_json` and `score_to_json`. |
| `lineitem.dfy`, `lineitems.dfy`, `result.dfy`, `score.dfy`, `scores.dfy` | one module per resource | Each handler as a pure specification function, the handler's steps as a method, and an `Execute` method that sets the response as `execute` does. |
| `registry.dfy` | `ServiceRegistry` | `get_resources`, as a class whose resource list is filled on the first call. |

## Design

- Every handler that changes state is a method on the `Gradebook` and `Response` objects (`modifies gb, resp`). Each `ensures` clause states, case by case, the new `Snapshot()` of the store and the new `State()` of the response. It states them in terms of pure functions about which the lemmas prove what the source promises.
- The two list builders are `while` loops that append a separator and an element on each step. Both are proved equal to `Joined(...)` of the elements the source emits.
- JSON objects are maps from member names to values. `json_encode` is not modelled: a serialiser returns the member map, and a listing is the ordered sequence of separators and elements, placed inside a fixed envelope.
- The answers of the collaborators are inputs, gathered in `Env`:
  - whether the grade item query throws;
  - whether an item update, an item delete or the ownership insert succeeds;
  - the status `grade_update` returns;
  - `time()`, `strtotime` and `date`.
- The request carries further answers of code outside the core: `check_tool_proxy` becomes `authorized`, the `parse_template` parameters and the decoded body are fields, and so are `get_endpoint()` and `get_tool_proxy()->id`. Calls to `grade_update` are appended to `submitted`, together with the item coordinates they are scoped by.
- The database returns columns as strings. For this reason `empty($grade->finalgrade)` holds only for null, because a decimal column reads as `"0.00000"`. `empty($grade->timemodified)` holds for null and for 0.
- A URL parameter matches a database id when it is that id's decimal rendering.
- PHP 7 semantics are assumed, so in the loose `==` against `"LineItem"` or `"Score"`, the number 0 equals a non-numeric string (`LineItemResource.PutValidAcceptsZeroType`).

Behaviours of the handlers that are easy to misread:

- Only DELETE on a line item uses the strict lookup. `lineitem.php:76` sets `$isdelete`, and `lineitem.php:85` passes `!$isdelete` as `any`, so GET and PUT use the permissive policy (`LineItemResource.PolicyFor`).
- When the ownership row of a newly created line item cannot be inserted, `lineitems.php:195-203` answers 500 but does not delete the item. It stays without an owner (`LineItemsResource.OrphanIsNotOwned`).
- A GET on the Score resource answers 405 (`score.php:105`), but only after the tool proxy check, the parameter checks, the item lookup, and the check that the grade row exists have all passed.
- The Score PUT compares the body's `resultAgent.userId` with the URL's user with `!==` (`score.php:160`). A user id sent as a JSON number is therefore refused (`ScoreResource.NumericUserIdRejected`).
- A GET followed by a PUT of the same rendering is not lossless. `item_to_json` renders the maximum with `intval` (`gradebookservices.php:230`), and `put_request` takes that integer when it rounds differently (`lineitem.php:142-145`). So an item out of 7.5 is rewritten out of 7 (`LineItemResource.MergeOfOwnRendering`, `LineItemResource.FractionalMaximumIsTruncated`).
- A new grade item takes the table's next auto-increment id. Ids of deleted items are never handed out again, so a new item inherits no ownership row and no grade rows (`GradeStore.NextIdIsFresh`).

## Model

| member | source | states |
|---|---|---|
| PhpValues.Truncate | mod/lti/service/gradebookservices/classes/local/service/gradebookservices.php:230 | `intval` of a float truncates toward zero: the result is the float's integer part, rounding toward zero from either side. |
| PhpValues.Round5 | mod/lti/service/gradebookservices/classes/local/service/gradebookservices.php:181 | `grade_floatval` returns a multiple of 0.00001 that is a nearest one to its argument: it lies within half a step of it, and a half step is rounded away from zero. |
| PhpValues.Round5Idempotent | mod/lti/service/gradebookservices/classes/local/resource/lineitem.php:142-145 | Rounding an already rounded maximum again leaves it unchanged. |
| PhpValues.Round5OfInt | mod/lti/service/gradebookservices/classes/local/resource/lineitem.php:142-145 | `grade_floatval` of a whole number is that number. |
| PhpValues.IntToStringRoundTrip | mod/lti/service/gradebookservices/classes/local/resource/lineitem.php:152-154 | Reading an integer back from its decimal rendering (`intval(strval(n))`) gives `n`. |
| PhpValues.IntToStringInjective | mod/lti/service/gradebookservices/classes/local/service/gradebookservices.php:143-144 | Two ids with the same decimal rendering are equal, so an id in the URL names at most one item. |
| PhpValues.IntValOfIntString | mod/lti/service/gradebookservices/classes/local/resource/lineitem.php:152-154 | The `resourceLinkId` a GET renders is numeric, and `intval` reads back the instance id it was rendered from. |
| GradeStore.NextIdIsFresh | mod/lti/service/gradebookservices/classes/local/resource/lineitems.php:194 | The id the next insert takes is named by no item, no ownership row and no grade row, even after deletions. |
| GradeStore.TextColumn | mod/lti/service/gradebookservices/classes/local/resource/lineitem.php:136 | A value read back from a text column is null or a string; a string is returned unchanged and an integer as its decimal rendering. |
| GradeStore.ReplaceItem | mod/lti/service/gradebookservices/classes/local/resource/lineitem.php:158 | After an update, the row with the item's id holds the new item, and every other row is unchanged. |
| GradeStore.RemoveItem | mod/lti/service/gradebookservices/classes/local/resource/lineitem.php:172-173 | After a delete, the table holds exactly the rows whose id differs from the deleted one. |
| GradeStore.RemoveItemKeepsUnique | mod/lti/service/gradebookservices/classes/local/resource/lineitem.php:173 | Deleting an item keeps item ids unique. |
| GradeStore.RemoveItemKeepsValid | mod/lti/service/gradebookservices/classes/local/resource/lineitem.php:173 | Deleting an item keeps the store's invariant, including that every id lies below the auto-increment counter. |
| GradeStore.ReplaceItemKeepsValid | mod/lti/service/gradebookservices/classes/local/resource/lineitem.php:158 | Updating an item keeps ids unique and the store's invariant intact. |
| GradeStore.FindGrade | mod/lti/service/gradebookservices/classes/local/resource/result.php:92 | A fetch by item and user finds a row of that item and that user. It finds none exactly when no such row exists. |
| GradeStore.GradesOf | mod/lti/service/gradebookservices/classes/local/resource/scores.php:123 | Exactly the grade rows of the item are fetched. |
| GradeStore.Gradebook.UpdateItem | mod/lti/service/gradebookservices/classes/local/resource/lineitem.php:158-160 | The item row is replaced when the update succeeds; the rest of the store is unchanged, and the store stays valid. |
| GradeStore.Gradebook.DeleteItem | mod/lti/service/gradebookservices/classes/local/resource/lineitem.php:172-175 | The item row is removed when the delete succeeds. Its ownership row is kept. |
| GradeStore.Gradebook.InsertItem | mod/lti/service/gradebookservices/classes/local/resource/lineitems.php:194 | The item is appended under the counter's current value, that id is returned, and the counter advances by one; nothing else changes. |
| GradeStore.Gradebook.InsertOwner | mod/lti/service/gradebookservices/classes/local/resource/lineitems.php:195-203 | The ownership row is recorded only when the insert succeeds. |
| GradeStore.Gradebook.SubmitGrade | mod/lti/service/gradebookservices/classes/local/service/gradebookservices.php:201-205 | A `grade_update` call is logged, and its status is returned. |
| ResourceBase.ContainerGateExact | mod/lti/service/gradebookservices/classes/local/resource/lineitems.php:81-89 | The rule "container XOR POST" in both directions: a POST passes only with the element type exactly, so a POST with no type is refused; any other method passes only with the container type or no type. |
| ResourceBase.JoinedAt | mod/lti/service/gradebookservices/classes/local/resource/lineitems.php:137-141 | In a listing, element `i` sits at position `2i+1` behind its separator: the first separator before element 0, the next separator before each later one. |
| ResourceBase.JoinedStep | mod/lti/service/gradebookservices/classes/local/resource/lineitems.php:138-141 | One more loop step extends the listing by exactly one separator and one element. |
| ResourceBase.Echo | mod/lti/service/gradebookservices/classes/local/resource/lineitems.php:204-207 | The echoed body keeps every submitted member and adds or overwrites only `@id` (and `scores`). |
| GradebookService.Rows | mod/lti/service/gradebookservices/classes/local/service/gradebookservices.php:138-147 | The query returns exactly the items of the course, with the given id, that are visible to the tool proxy under the policy. |
| GradebookService.RowsAtMostOne | mod/lti/service/gradebookservices/classes/local/service/gradebookservices.php:143-148 | With unique ids, a lookup by item id returns at most one row. |
| GradebookService.GetLineItem | mod/lti/service/gradebookservices/classes/local/service/gradebookservices.php:124-159 | A found item is in the table and matches the course, the id and the visibility rule. A failing query finds nothing. With unique ids, an item is found exactly when a matching one exists. |
| GradebookService.StrictLookupImpliesAny | mod/lti/service/gradebookservices/classes/local/service/gradebookservices.php:127-137 | An item found under the strict (service-owned) policy is found, identically, under the permissive policy. |
| GradebookService.GetLineItems | mod/lti/service/gradebookservices/classes/local/service/gradebookservices.php:84-110 | A failing query is a 500. Otherwise the result holds exactly the course's items that are owned by, or launched through, the tool proxy. |
| GradebookService.ItemGate | mod/lti/service/gradebookservices/classes/local/resource/lineitem.php:78-87 | The order of the checks: 401 without authorization, then 400 for bad parameters, then the resource's not-found code. A found item is visible and in the table; with a working query it is found exactly when one exists. |
| GradebookService.RawGrade | mod/lti/service/gradebookservices/classes/local/service/gradebookservices.php:178-188 | A raw grade exists exactly when `scoreGiven` is set. It is rescaled to the item's maximum only when `scoreMaximum` is set and differs from both the item's maximum and zero (so the division is safe); otherwise it is the rounded score. |
| GradebookService.NoRescaleAtSameMaximum | mod/lti/service/gradebookservices/classes/local/service/gradebookservices.php:186 | A score sent on the item's own scale is not rescaled, only rounded to five decimals. |
| GradebookService.NoRescaleAtZeroMaximum | mod/lti/service/gradebookservices/classes/local/service/gradebookservices.php:186 | A maximum of zero never rescales. |
| GradebookService.RescaleExample | mod/lti/service/gradebookservices/classes/local/service/gradebookservices.php:187 | 45 out of 50, on an item out of 100, is recorded as 90. |
| GradebookService.BuildGrade | mod/lti/service/gradebookservices/classes/local/service/gradebookservices.php:176-200 | The grade record names the user, has a minimum of 0 and the raw grade above. The feedback is the comment, in plain format, exactly when the comment is set and non-empty, and otherwise false in Moodle format. The time is the parsed timestamp when one is given, and otherwise the current time. |
| GradebookService.SetGradeItem | mod/lti/service/gradebookservices/classes/local/service/gradebookservices.php:169-207 | An unknown user is a 400, with nothing submitted. Otherwise exactly that grade record is submitted for the item, and a non-OK status is a 500. |
| GradebookService.ItemToJsonFixedKeys | mod/lti/service/gradebookservices/classes/local/service/gradebookservices.php:222-234 | `@id`, `label`, `lineItemScoreMaximum` and `scores` are always written. |
| GradebookService.ItemToJsonLinkedDataKeys | mod/lti/service/gradebookservices/classes/local/service/gradebookservices.php:223-228 | `@context` and `@type` are written exactly when the item is not rendered for a container. |
| GradebookService.ItemToJsonOptionalKeys | mod/lti/service/gradebookservices/classes/local/service/gradebookservices.php:231-245 | `resourceId`, `lineItemType`, `lineItemOf` and `resourceLinkId` are each written exactly when their source is non-empty, truthy or set. |
| GradebookService.ItemToJsonNoOtherKeys | mod/lti/service/gradebookservices/classes/local/service/gradebookservices.php:221-245 | No other member is written. |
| GradebookService.ItemToJsonUrls | mod/lti/service/gradebookservices/classes/local/service/gradebookservices.php:222-234 | `@id` is `endpoint/id`, and `scores` is that followed by `/scores`. |
| GradebookService.ItemToJsonFixedValues | mod/lti/service/gradebookservices/classes/local/service/gradebookservices.php:229-230 | `label` is the item name, and the maximum is `intval` of the grade maximum. |
| GradebookService.ItemToJsonLinkedDataValues | mod/lti/service/gradebookservices/classes/local/service/gradebookservices.php:223-228 | Outside a container the item is a `LineItem` in the LIS v2 LineItem context. |
| GradebookService.ItemToJsonOptionalValues | mod/lti/service/gradebookservices/classes/local/service/gradebookservices.php:231-245 | The optional members carry the id number, the line item type, the context id, and `strval` of the instance. |
| GradebookService.ResultToJsonKeys | mod/lti/service/gradebookservices/classes/local/service/gradebookservices.php:261-276 | `@id`, `resultScore`, `resultMaximum` and `timestamp` are always written. `@context` and `@type` are written exactly with `includecontext`, and `comment` exactly for non-empty feedback. Nothing else is written. |
| GradebookService.ResultToJsonValues | mod/lti/service/gradebookservices/classes/local/service/gradebookservices.php:263-275 | `@id` is `endpoint/results/userid`. The score is the final grade, the maximum is `intval` of the raw maximum, and the timestamp is the formatted time. |
| GradebookService.ScoreToJsonKeys | mod/lti/service/gradebookservices/classes/local/service/gradebookservices.php:291-310 | `@id`, `scoreGiven`, `scoreMaximum`, `scoreOf`, `timestamp` and `resultAgent` are always written. `@context` and `@type` are written exactly with `includecontext`, and `comment` exactly for non-empty feedback. Nothing else is written. |
| GradebookService.ScoreToJsonValues | mod/lti/service/gradebookservices/classes/local/service/gradebookservices.php:293-309 | `@id` is `endpoint/scores/userid`, `scoreOf` is the endpoint, and `resultAgent.userId` is the user. The score and maximum are as in a result. |
| LineItemResource.DeleteNeedsOwnership | mod/lti/service/gradebookservices/classes/local/resource/lineitem.php:76-87 | An item that a DELETE gets past the lookup is owned by the requesting tool proxy. |
| LineItemResource.LaunchedItemsAreNotDeleted | mod/lti/service/gradebookservices/classes/local/resource/lineitem.php:85-87 | An item with no ownership row, even one launched through the proxy, fails a DELETE's lookup. |
| LineItemResource.PutValidAcceptsZeroType | mod/lti/service/gradebookservices/classes/local/resource/lineitem.php:133 | Under PHP 7's loose comparison, an `@type` of 0 passes the check against `LineItem`. |
| LineItemResource.Merge | mod/lti/service/gradebookservices/classes/local/resource/lineitem.php:137-156 | Only the name, the maximum, the id number and the instance can change. Each takes the submitted value when it is set and differs (for the instance: only when numeric, and as an integer; for the maximum: rounded to five decimals). The "changed" flag holds exactly when the item differs. |
| LineItemResource.RepeatedPutWritesOnce | mod/lti/service/gradebookservices/classes/local/resource/lineitem.php:136-158 | A second identical PUT, which fetches the row the first one wrote, writes nothing when the label and resource id it sends are strings. |
| LineItemResource.RepeatedNumericLabelWritesAgain | mod/lti/service/gradebookservices/classes/local/resource/lineitem.php:136-158 | A label sent as a number comes back from the table as a string, which `!==` tells apart from the number, so an identical PUT writes the item again. |
| LineItemResource.MaximumChangesTo | mod/lti/service/gradebookservices/classes/local/resource/lineitem.php:142-144 | An integer maximum is taken exactly when the current maximum rounds to a different value. |
| LineItemResource.MergeOfOwnRendering | mod/lti/service/gradebookservices/classes/local/resource/lineitem.php:137-156 | For every item, putting back what a GET rendered (`put_request` after `item_to_json`) keeps the name, the id number and the instance. It writes exactly when the rounded maximum differs from its `intval`, and then writes the truncated maximum. |
| LineItemResource.WholeMaximumRoundTrips | mod/lti/service/gradebookservices/classes/local/resource/lineitem.php:137-156 | For an item whose maximum is a whole number, putting back what a GET rendered writes nothing. |
| LineItemResource.FractionalMaximumIsTruncated | mod/lti/service/gradebookservices/classes/local/service/gradebookservices.php:230 | An item out of 7.5 that is read and put back unchanged is written back out of 7. |
| LineItemResource.PutRequest | mod/lti/service/gradebookservices/classes/local/resource/lineitem.php:130-163 | A body that fails validation is a 400, with the store untouched. A body that changes nothing causes no write. Otherwise the merged item is written, and a failed update is a 500. |
| LineItemResource.DeleteRequest | mod/lti/service/gradebookservices/classes/local/resource/lineitem.php:170-177 | The item is removed, or a 500 is returned when the delete fails. Nothing else changes. |
| LineItemResource.Execute | mod/lti/service/gradebookservices/classes/local/resource/lineitem.php:65-107 | The gate's code, or for GET the rendered item with its context and the line item type, or PUT's and DELETE's effect and code, or 405. Each case states both the response and the store. |
| LineItemsResource.Gate | mod/lti/service/gradebookservices/classes/local/resource/lineitems.php:84-90 | 401 comes before any 400. A request passes exactly when the context is named and the container-XOR-POST rule holds. |
| LineItemsResource.GateTypes | mod/lti/service/gradebookservices/classes/local/resource/lineitems.php:81-89 | A POST that passes presents the line item type. Any other request that passes presents the container type or none. |
| LineItemsResource.Elements | mod/lti/service/gradebookservices/classes/local/resource/lineitems.php:139 | One element per item, in order, each the container-mode rendering of its item. |
| LineItemsResource.ListItems | mod/lti/service/gradebookservices/classes/local/resource/lineitems.php:136-141 | The loop produces exactly the items' renderings in order, each behind its separator. |
| LineItemsResource.ListedItemsAreVisible | mod/lti/service/gradebookservices/classes/local/resource/lineitems.php:94-95 | Every listed element is the rendering of an item of this course that the tool proxy can see. |
| LineItemsResource.MemberOr | mod/lti/service/gradebookservices/classes/local/resource/lineitems.php:171-173 | A member is read when it is set, and the default is used otherwise. |
| LineItemsResource.NewItem | mod/lti/service/gradebookservices/classes/local/resource/lineitems.php:171-193 | The defaults: the label `Item <time>`, a maximum of 1, a minimum of 0, an empty id number, type `mod` and module `lti`. The instance is set exactly when `resourceLinkId` is numeric. |
| LineItemsResource.Links | mod/lti/service/gradebookservices/classes/local/resource/lineitems.php:204-205 | The echo adds exactly `@id = endpoint/id` and `scores = endpoint/id/scores`. |
| LineItemsResource.CreatedItemIsOwned | mod/lti/service/gradebookservices/classes/local/resource/lineitems.php:194-200 | A created line item with its ownership row is found by the strict lookup that a DELETE uses. |
| LineItemsResource.OrphanIsNotOwned | mod/lti/service/gradebookservices/classes/local/resource/lineitems.php:194-203 | When the ownership insert fails, the created item stays in the table, and the strict lookup does not find it. |
| LineItemsResource.PostRequest | mod/lti/service/gradebookservices/classes/local/resource/lineitems.php:162-209 | An invalid body is a 400, with nothing written. Otherwise the item is appended under a fresh id. Then either the ownership row is added and the echo is returned, or the item stays and a 500 is returned. |
| LineItemsResource.Execute | mod/lti/service/gradebookservices/classes/local/resource/lineitems.php:66-112 | The gate's code, or a 500 for a failing listing query, or the listing with the container type, or the created item with 201 and the line item type, or 405. |
| ResultResource.ResultRecord | mod/lti/service/gradebookservices/classes/local/resource/result.php:110-124 | The result is reported under the URL's user. An ungraded result (no row, or a null final grade) is reported without any time check. A graded row with no time is exactly the 400 case. |
| ResultResource.GradedResultIsReported | mod/lti/service/gradebookservices/classes/local/resource/result.php:116-120 | A graded, timed row is reported as it is stored. |
| ResultResource.Execute | mod/lti/service/gradebookservices/classes/local/resource/result.php:64-100 | A method other than GET escapes as a 405, with the response untouched. Otherwise the gate's code, or the result format with a 400 or with the serialised result. |
| ScoreResource.NumericUserIdRejected | mod/lti/service/gradebookservices/classes/local/resource/score.php:160 | A `resultAgent.userId` sent as a number never passes the strict comparison with the URL's user. |
| ScoreResource.TrimLastSegment | mod/lti/service/gradebookservices/classes/local/resource/score.php:171 | The result is the endpoint up to its last `/`, or empty when it has none. |
| ScoreResource.TrimLastSegmentOf | mod/lti/service/gradebookservices/classes/local/resource/score.php:171 | Trimming `a/b` gives `a`, when `b` contains no slash. |
| ScoreResource.PutOutcome | mod/lti/service/gradebookservices/classes/local/resource/score.php:156-176 | A refused score changes nothing and is a 400, and so is a `FullyGraded` score for a user the user table does not hold. Otherwise exactly one grade update is submitted, for the item: the built grade when the score is `FullyGraded`, and a clearing record otherwise. Only the update log changes, and the answer is the score echoed with its `@id` when `grade_update` succeeds and a 500 when it fails. |
| ScoreResource.ClearedUserIsTheResult | mod/lti/service/gradebookservices/classes/local/resource/score.php:164-168 | A grade cleared by a PUT belongs to the URL's user, or to nobody when the body names no user. |
| ScoreResource.EchoedIdNamesTheResult | mod/lti/service/gradebookservices/classes/local/resource/score.php:169-173 | An accepted score that names its user is echoed under the line item's `scores/<user>` URL. |
| ScoreResource.DeleteRequest | mod/lti/service/gradebookservices/classes/local/resource/score.php:185-198 | A clearing record (no grade, null feedback, Moodle format) is submitted, and a non-OK status is a 500. |
| ScoreResource.PutRequest | mod/lti/service/gradebookservices/classes/local/resource/score.php:156-176 | The new store and the answer are exactly those of `PutOutcome`. |
| ScoreResource.Execute | mod/lti/service/gradebookservices/classes/local/resource/score.php:65-124 | The gate's code, or a 400 when the user has no grade row, or for GET a 405 without a body, or PUT's and DELETE's outcome with 200, or 405. |
| ScoresResource.GateTypes | mod/lti/service/gradebookservices/classes/local/resource/scores.php:79-88 | A POST that passes presents the score type. Any other request that passes presents the container type or none. |
| ScoresResource.GradedOnly | mod/lti/service/gradebookservices/classes/local/resource/scores.php:137-138 | Exactly the rows with a non-empty time are listed. |
| ScoresResource.ElementsAt | mod/lti/service/gradebookservices/classes/local/resource/scores.php:139 | Element `i` of the listing is row `i`'s score rendering, without its context. |
| ScoresResource.ListingStep | mod/lti/service/gradebookservices/classes/local/resource/scores.php:137-141 | A row extends the listing only when it has a time, and then by one separator and its score. |
| ScoresResource.ListScores | mod/lti/service/gradebookservices/classes/local/resource/scores.php:134-142 | The loop produces exactly the timed rows' scores, in order, each behind its separator. |
| ScoresResource.ListedScoresAreGraded | mod/lti/service/gradebookservices/classes/local/resource/scores.php:121-142 | Every listed element is the score of a timed row of this item. |
| ScoresResource.PostRequest | mod/lti/service/gradebookservices/classes/local/resource/scores.php:162-175 | An invalid body or an unknown user is a 400, with nothing submitted. Otherwise the built grade is submitted for the named user, and the echo carries `@id = endpoint/user`. |
| ScoresResource.Execute | mod/lti/service/gradebookservices/classes/local/resource/scores.php:66-112 | The gate's code, including a 404 for a missing item, or the listing with the container type, or the recorded score with 201 and the score type, or 405. |
| ServiceRegistry.AllResources | mod/lti/service/gradebookservices/classes/local/service/gradebookservices.php:61-69 | Five resources in the order LineItem, LineItems, Result, Score, Scores, so that each element resource comes before its container. |
| ServiceRegistry.Service.GetResources | mod/lti/service/gradebookservices/classes/local/service/gradebookservices.php:59-75 | The list is built only when it is empty, and every call returns the same five resources. |

## Left out

- SQL text and its joins: the queries are modelled as filters over the tables. The database's numeric coercion of strings (such as `"07"` matching id 7) is not modelled; an id matches only by its decimal rendering.
- `json_encode` and `json_decode`: bodies are `Json` values. A JSON object is a map, so the order of its members and the text of a listing, beyond its separators and envelope, are not modelled.
- Numeric columns the database returns as strings are modelled by their type. For example, a final grade is a real, not the decimal string `json_encode` would emit.
- The store keeps a grade item's `itemname` and `idnumber` with the JSON type the tool sent, where the database would hand them back as strings. `GradeStore.Stored` gives the row as it is read back, and `LineItemResource.RepeatedPutWritesOnce` and `LineItemResource.RepeatedNumericLabelWritesAgain` are stated on it; the handlers' own contracts are not.
- GradeStore.Gradebook.DeleteItem: removes only the item row. gradelib's `grade_item::delete`, which is not part of this model, also deletes the item's grade rows; the model keeps them. No handler can observe them, because every read of grade rows first looks the item up, and ids are never reused.
- IEEE floating point: grades are reals, and `grade_floatval` is rounding to five decimals, half away from zero.
- `round` on a non-numeric string, which returns null in PHP, is not modelled.
- PhpValues.IsNumericString: leading and trailing blanks, exponents and forms like `.5` are not modelled.
- PhpValues.StrVal: a non-integral float renders as the empty string, because PHP's float formatting is not modelled.
- `time()`, `strtotime` and `date` are inputs. Their results are not modelled.
- `grade_update` itself, and how it changes grade rows: each call is logged with the record it was given. Only its status is an input.
- An item insert that fails: `$item->insert` is assumed to succeed, as the source does not check it.
- Duplicate grade rows for one item and user, which a unique index in the gradebook rules out: a fetch takes the first matching row.
- `gradetype` and the database's type conversion of the values a POST sends: the maximum is `floatval` of the submitted value.
- The `activity` that `post_request_json` reads from the body: it is never used.
- The `parse_value` methods: they depend on the globals `$COURSE`, `$USER` and `optional_param`.
- `score::get_request_json`: GET is disabled and the method is never called.
- The `limit`, `page`, `resourceid` and `resourcelinkid` parameters of the LineItems GET: they are read but not used.
- The base-class plumbing (`parse_template`, `check_tool_proxy`, `get_endpoint`, `get_tool_proxy`): their results are fields of the request.
- Concurrency: each request is handled alone.
