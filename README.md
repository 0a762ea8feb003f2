# GraphQL flow-data backend: join engine and authenticator

This project models the two pieces of the GraphQL backend that hold logic:

- **The join engine** (`src/resolvers.js`). Five read-only collections
  (nodes, triggers, actions, responses, resource templates) are stitched
  into a nested graph by `find`, `map` and `filter`. The top-level `Query`
  resolvers look a record up by a truthy id or return the whole collection.
  The field resolvers `NodeObject.trigger`, `NodeObject.responses`,
  `NodeObject.postActions` and `Trigger.resourceTemplate` follow foreign keys.
- **The authenticator** (`src/auth.js`, `authenticate`). It defaults a
  missing `authorization` header to `''` and removes the first `"Bearer "`
  from it. It then verifies the token and compares the payload's `userId`,
  `authToken` and `timeStamp` with `===` against `demoToken[0]`. Every
  failure becomes the same `'Invalid token'` error.

Both files are pure, so the model is datatypes, functions and lemmas:

| file | module | contents |
|---|---|---|
| `wrappers.dfy` | `Wrappers` | `Option`, `Result` |
| `js_values.dfy` | `JsValues` | parsed JSON values, truthiness, property reads, `===` |
| `records.dfy` | `Records` | the five record kinds, the `Array.isArray` view of id-list fields, the `Store` |
| `array_ops.dfy` | `ArrayOps` | `find` by id, `filter(x => x !== null)` and their specifications |
| `resolvers.dfy` | `Resolvers` | the `Query`, `NodeObject` and `Trigger` resolvers |
| `strings.dfy` | `Strings` | `indexOf` and `replace(pat, '')` on strings |
| `auth.dfy` | `Auth` | `authenticate` and its properties |
| `end_to_end.dfy` | `EndToEnd` | one small dataset expanded through every field resolver |

The collections are the `Store` argument of every resolver, so there is no
module-level state. `demoToken` is a `seq<JsValue>` argument. The token
secret and `jwt.verify` are arguments too. `jwt.verify` is a function
`Verifier` returning the decoded payload, or `None` when it throws, and
every property of `Authenticate` is proved for every such function.

Modelling decisions that follow the code:

- `find(x => x._id === id)` is `ArrayOps.FindById`. It is proved to return
  the first match, and `None` when nothing matches. A missing foreign key
  is `None` and stands for `undefined`, which equals no string `_id`.
- An id argument is `Option<string>`. `Some("")` is falsy, like `None`, so
  both return the whole collection.
- An id-taking query returns `One(found)` or `All(records)`, because the
  source returns either an object or an array.
- `NodeObject.responses` keeps an unmatched id in place as `None` (the
  source maps it to `undefined`). Unlike `postActions`, nothing is dropped:
  in `EndToEnd.SampleExpansion` the unknown `r9` stays in place as `None`,
  giving `[Some(r1), None]`.
- `NodeObject.postActions` does drop unmatched ids. It returns `None`
  (`null`) when the field is not an array, and a list, possibly empty,
  when it is one.
- `===` on two values parsed separately compares primitives by value. It
  is false for arrays and objects, even identical ones, because two
  separate parses never share a reference.
- A property read on `undefined` or `null` throws a TypeError. One such
  case is `demoToken[0]` when the reference list is empty. The `catch`
  turns the TypeError into `'Invalid token'`, like every other failure.

## Model

| member | source | states |
|---|---|---|
| `ArrayOps.FindById` | src/resolvers.js:46 | `find` by id returns the element at the first position whose `_id` equals the id, or none exactly when no element has that id |
| `ArrayOps.FirstMatchIsUnique` | src/resolvers.js:46 | only one result fits the first-match description, so that description fully specifies `find` |
| `ArrayOps.FindByUniqueId` | src/resolvers.js:46 | when ids are unique within a collection, looking up a stored record's id returns that record |
| `ArrayOps.Compact` | src/resolvers.js:155 | `filter(x => x !== null)` is no longer than its input, and every value it keeps was present in the input |
| `ArrayOps.CompactKeepsPresentInOrder` | src/resolvers.js:155 | `filter(x => x !== null)` keeps exactly the present values: the k-th kept value sits at the k-th present position, positions increase, and every present position is kept |
| `Resolvers.Lookup` | src/resolvers.js:46 | a truthy id gives the first record with that id or none; a missing or empty id gives the whole collection |
| `Resolvers.QueryNode` | src/resolvers.js:46 | `node(nodeId)`: first node with the id, or none, for a truthy id; all nodes otherwise |
| `Resolvers.QueryNodes` | src/resolvers.js:53 | `nodes()` returns the node collection unchanged, the same one `node()` without an id returns |
| `Resolvers.QueryTrigger` | src/resolvers.js:63 | `trigger(triggerId)`: first trigger with the id, or none, for a truthy id; all triggers otherwise |
| `Resolvers.QueryTriggers` | src/resolvers.js:70 | `triggers()` returns the trigger collection unchanged, the same one `trigger()` without an id returns |
| `Resolvers.QueryActions` | src/resolvers.js:80 | `actions(actionId)`: first action with the id, or none, for a truthy id; all actions otherwise |
| `Resolvers.QueryResponse` | src/resolvers.js:90 | `response(responseId)`: first response with the id, or none, for a truthy id; all responses otherwise |
| `Resolvers.QueryResponses` | src/resolvers.js:97 | `responses()` returns the response collection unchanged, the same one `response()` without an id returns |
| `Resolvers.QueryResourceTemplate` | src/resolvers.js:107 | `resourceTemplate(id)`: first template with the id, or none, for a truthy id; all templates otherwise |
| `Resolvers.QueryResourceTemplates` | src/resolvers.js:114 | `resourceTemplates()` returns the template collection unchanged, the same one `resourceTemplate()` without an id returns |
| `Resolvers.FalsyIdListsCollection` | src/resolvers.js:46-114 | with a missing or empty id every id-taking query returns its collection unchanged, the same one `nodes`, `triggers`, `responses` and `resourceTemplates` always return |
| `Resolvers.NodeLookupOutcomes` | src/resolvers.js:46 | a node id that no node carries gives an empty result, not a failure; with unique ids a stored node's id gives that node |
| `Resolvers.NodeTrigger` | src/resolvers.js:123 | `NodeObject.trigger` is the first trigger whose id is the node's `trigger` field, and none when the field is missing or dangling |
| `Resolvers.TriggerResourceTemplate` | src/resolvers.js:167 | `Trigger.resourceTemplate` is the first template whose id is the trigger's `resourceTemplateId`, and none when it is missing or dangling |
| `Resolvers.NodeResponses` | src/resolvers.js:131-136 | for an array of ids the result has its length and order, element i being the first response with id i or none in place; not an array gives `[]` |
| `Resolvers.ExpandPostAction` | src/resolvers.js:146-154 | the callback gives null exactly when no action has the id, and otherwise the first such action, carried over whole, with the first template matching its `resourceTemplateId` attached |
| `Resolvers.NodePostActions` | src/resolvers.js:144-158 | `NodeObject.postActions` is null exactly when the field is not an array, and otherwise a list no longer than the id list |
| `Resolvers.PostActionsAreMatchedIdsInOrder` | src/resolvers.js:145-155 | for an array, the result is the matched ids' expansions in original order: one per position some action carries, each the first such action unchanged plus its first matching template |
| `Resolvers.PostActionsAbsentVersusEmpty` | src/resolvers.js:145-157 | a missing `postActions` field gives null while an empty array gives an empty list |
| `EndToEnd.SampleExpansion` | src/resolvers.js:123-167 | on a small dataset, node expansion gives the trigger's template, responses `[r1, none]` with the unknown id kept in place, and the post-action with its template |
| `JsValues.StrictEquals` | src/auth.js:48-50 | two values can be `===` only when they are equal primitives |
| `JsValues.StrictEqualsIsPrimitiveEquality` | src/auth.js:48-50 | `!==` between separately parsed values is inequality, except that arrays and objects never compare equal |
| `JsValues.GetProperty` | src/auth.js:48-50 | reading a payload field throws exactly on `undefined` and `null`; an object yields its own property, or `undefined` when it lacks the key, as does any other value |
| `Strings.IndexOf` | src/auth.js:40 | the position found is the first one where the pattern occurs, and none exactly when it occurs nowhere |
| `Strings.RemoveFirst` | src/auth.js:40 | `replace(pat, '')` removes the first occurrence wherever it is and keeps a string without the pattern unchanged |
| `Strings.RemoveLeadingPattern` | src/auth.js:40 | removing a pattern that opens the string leaves the rest |
| `Auth.AuthHeader` | src/auth.js:38 | a missing header becomes the empty string; a present header, even an empty one, is used as sent |
| `Auth.BearerToken` | src/auth.js:40 | the token is the header either unchanged or exactly one `"Bearer "` shorter |
| `Auth.BearerTokenRemovesFirstMarker` | src/auth.js:40 | the token verified is the header with only its first `"Bearer "` removed, and a header without it is passed unchanged |
| `Auth.Guarded` | src/auth.js:42-57 | the `try` block, when it completes, returns the payload `verify` decoded; it throws a verification error exactly when `verify` fails, and its own authentication error says "Invalid token" |
| `Auth.GuardedSucceedsIffMatch` | src/auth.js:42-57 | the guarded block completes exactly when verification succeeds and all three fields match, and it returns the decoded payload |
| `Auth.Authenticate` | src/auth.js:36-62 | authorized exactly when verification succeeds and `userId`, `authToken` and `timeStamp` all strictly equal those of `demoToken[0]`; the payload is returned unmodified; every rejection says "Invalid token" |
| `Auth.RejectionsAreIndistinguishable` | src/auth.js:53-60 | any two rejections are the same value, whatever caused them |
| `Auth.VerificationFailureRejects` | src/auth.js:42-60 | a verification failure becomes the uniform rejection, not a different error |
| `Auth.AnyFieldMismatchRejects` | src/auth.js:47-53 | a mismatch on any one of the three fields, whichever it is, is rejected |
| `Auth.EmptyReferenceRejects` | src/auth.js:47-60 | with no reference identity, `demoToken[0].userId` throws and every request is rejected |
| `Auth.MissingHeaderIsEmptyToken` | src/auth.js:38-40 | a missing header is verified as the empty token and is handled exactly like an empty header |
| `Auth.BearerHeaderYieldsCredential` | src/auth.js:40 | a header `Bearer <t>` hands exactly `<t>` to verification |
| `Auth.MarkerRemovedMidHeader` | src/auth.js:40 | the marker is removed wherever it first occurs, not only as a prefix |
| `Auth.ObjectFieldNeverMatches` | src/auth.js:48-50 | a reference identity whose `authToken` is an object or an array is matched by no payload |

## Left out

- `loadJSON` and the module-level loads (src/resolvers.js:19-28, src/auth.js:22-27): file reading and JSON parsing. The collections and `demoToken` are arguments instead.
- `jwt.verify` and `process.env.TOKEN_SECRET` (src/auth.js:44): the signature check belongs to a library outside this model. It is the `Verifier` argument, and the secret is an `Option<string>` argument. So the claim that an empty, malformed or wrongly signed token fails verification is the library's, not proved here. What is proved is that any verification failure leads to the uniform rejection.
- src/generate-token/generateJwtToken.js: hashing, signing and console output, with no logic of its own.
- src/server.js: server construction and `listen`, which are network plumbing. Its context function only calls `authenticate`.
- src/schema.js: a declarative type description with no behaviour. It declares an `action(actionId)` query that the resolvers do not define, so none is modelled. Its `Query` type (src/schema.js:95-102) omits the `response`, `responses`, `resourceTemplate` and `resourceTemplates` queries that the resolvers do define; those are modelled as written. It declares `actions` without an argument, so under the served schema `Query.actions` never receives an `actionId`; the model still takes the optional argument, as src/resolvers.js:80 does.
- The GraphQL layer: the `Long`/`JSON` scalar bindings (src/resolvers.js:35-36), lazy field selection, and the coercion of a returned array into an object-typed field. Field resolvers are plain functions of their parent record.
- Record shapes: every `_id` is a string. Each element of an id-list array is a string. A singular foreign key is a string or missing. A non-string JSON value in any of these places is not modelled.
- `demoToken` is modelled as a JSON array. A reference file holding some other JSON value is not modelled.
- `req.headers` is assumed present. Reading `authorization` from a missing `headers` object would throw outside the `try` block, and that path is not modelled.
- JsValues.GetProperty: ignores built-in properties of primitives and arrays (such as `length`). None of them shares a name with the three payload fields read here.
- Numbers are modelled as `real`, so there is no floating-point rounding. Values that come from `JSON.parse` are never `NaN`, and `-0 === 0` holds in both the source and the model.
