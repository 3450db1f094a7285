# Notice: template-message builder and template-data formatter

This project models the template-message part of the EasyWeChat `Notice`
API, as its test `tests/Notice/NoticeNoticeTest.php` pins it down. The
source of the `Notice` class is not available. Its behaviour is inferred
from that test's assertions. The model has two parts.

* **The builder** (`NoticeBuilder.Notice`) is a mutable object with slots
  for the recipient (`touser`), the template id, the url, a colour and the
  `data` mapping. Alias setters write the slots:
  * `withTo`, `withReceiver` and `to` write the recipient.
  * `withTemplateId`, `withTemplate` and `template` write the template id.
  * `withUrl` and `withLink` write the url.
  * `withColor`, `andColor` and `color` write the colour.
  * `data` writes the mapping.
  * `foo` accepts and discards its argument.

  Every setter returns the builder itself. `send` merges the explicit
  parameters over the builder state, and an explicit parameter wins. In the
  model, an explicit parameter that is empty falls back to the builder's
  value; the test never passes one (see "## Left out"). It fails with a missing-field error when the recipient or the
  template id resolves to nothing; the message names the field and ends in
  " can not be empty!". Otherwise it produces one request to the notice-send
  endpoint. `send` does not clear the builder, so a later `send` on the same
  object sees what earlier chains set.
  * The pure function `Step` gives the effect of one call, whatever alias
    name it uses.
  * `Apply` folds `Step` over a chain of calls.
  * `Dispatch` is what `send` computes from a state and explicit parameters.

  Each class method is proved against these functions. The lemmas about
  them are: last write wins per slot, aliases agree, `foo` is a no-op
  anywhere in a chain, and the builder colour never reaches the data.
* **The formatter** (`TemplateData.Normalize`) normalises each entry of
  `data` into a `{value, color}` cell:
  * A scalar `s` becomes `{s, #173177}`.
  * `[v]` becomes `{v, #173177}`.
  * `[v, c]` with a non-empty colour `c` becomes `{v, c}`.
  * A `{value, color}` record with a non-empty colour passes through.
  * An empty or absent colour in a list or record is replaced by `#173177`.
  * Any other value becomes `{"error data item.", #173177}`.

  Every input key appears in the output and no other key does. Normalising
  a normalised mapping changes nothing.

The formatter's default colour is the constant `#173177`, not the builder's
colour. The test sets `color('color1')` (line 161), yet scalar entries come
back with `#173177` (lines 168-172). The model follows the test.

`NoticeScenarios` replays `testSend` and `testFormatData`, each on one
builder object, and proves every assertion the test makes.

## Model

| member | source | states |
|---|---|---|
| `TemplateData.NormalizeEntry` | tests/Notice/NoticeNoticeTest.php:167-207 | the colour is never empty; an entry's own non-empty colour wins, otherwise `#173177`; the value is the entry's value, or `error data item.` for an unsupported shape |
| `TemplateData.Normalize` | tests/Notice/NoticeNoticeTest.php:161-207 | the output has exactly the input's keys, and each key's cell is the normalisation of that key's entry alone |
| `TemplateData.AsEntries` | tests/Notice/NoticeNoticeTest.php:194-200 | keeps the key set, and reads each cell back as a `{value, color}` record holding that cell's value and colour |
| `TemplateData.ScalarGetsDefaultColor` | tests/Notice/NoticeNoticeTest.php:154-172 | a scalar entry `s` is sent as `{value: s, color: #173177}` |
| `TemplateData.SingleGetsDefaultColor` | tests/Notice/NoticeNoticeTest.php:178-188 | a one-element list `[v]` is sent as `{value: v, color: #173177}` |
| `TemplateData.PairKeepsItsColor` | tests/Notice/NoticeNoticeTest.php:175-189 | a two-element list `[v, c]` with a non-empty colour `c` is sent as `{value: v, color: c}` |
| `TemplateData.UnsupportedBecomesSentinel` | tests/Notice/NoticeNoticeTest.php:181-191 | an entry of unsupported shape is sent as `{value: 'error data item.', color: #173177}`, with no error raised |
| `TemplateData.NormalizedEntryPassesThrough` | tests/Notice/NoticeNoticeTest.php:194-207 | an entry already in `{value, color}` form with a non-empty colour comes back unchanged |
| `TemplateData.NormalizeIdempotent` | tests/Notice/NoticeNoticeTest.php:194-207 | normalising an already normalised mapping yields the same mapping |
| `NoticeBuilder.Set` | tests/Notice/NoticeNoticeTest.php:132-143 | writing a slot sets that slot and leaves every other slot and the data as they were |
| `NoticeBuilder.SlotOf` | tests/Notice/NoticeNoticeTest.php:132-143 | the alias table: each alias names the slot it writes; `data` and `foo` write no string slot. It has no contract of its own; `AliasesAgree` and `LastWriteWins` carry its properties |
| `NoticeBuilder.Step` | tests/Notice/NoticeNoticeTest.php:132-161 | the effect of one call: a setter sets its alias's slot, `data` replaces the mapping, `foo` changes nothing. It has no contract of its own; the setters' ensures, `AliasesAgree` and `FooIsNoOp` carry its properties |
| `NoticeBuilder.Apply` | tests/Notice/NoticeNoticeTest.php:132-143 | a chain applies `Step` to each call, left to right. It has no contract of its own; `ApplyAppend`, `UnwrittenSlotKept`, `LastWriteWins` and `FooIsNoOp` carry its properties |
| `NoticeBuilder.ErrorMessage` | tests/Notice/NoticeNoticeTest.php:121 | the error message starts with the missing field's name and ends with " can not be empty!" |
| `NoticeBuilder.Pick` | tests/Notice/NoticeNoticeTest.php:124-128 | an explicit send parameter wins over the builder's value when it is given and not empty |
| `NoticeBuilder.PickData` | tests/Notice/NoticeNoticeTest.php:124-130 | explicit `data` wins over the builder's data when it is given and not empty |
| `NoticeBuilder.Dispatch` | tests/Notice/NoticeNoticeTest.php:117-143 | send succeeds exactly when the merged recipient and template id are both non-empty; otherwise it fails naming `touser` first, then `template_id`; on success it targets the notice-send endpoint, passes the merged recipient, template id and url through, and sends exactly the normalisation of the merged data (explicit non-empty `data` if given, otherwise the builder's) |
| `NoticeBuilder.ApplyAppend` | tests/Notice/NoticeNoticeTest.php:132-143 | applying a chain in two pieces is the same as applying it whole |
| `NoticeBuilder.UnwrittenSlotKept` | tests/Notice/NoticeNoticeTest.php:124-143 | a slot that no call in a chain writes keeps its earlier value |
| `NoticeBuilder.LastWriteWins` | tests/Notice/NoticeNoticeTest.php:132-143 | after a chain, a slot holds the value of the last call that wrote it, whichever alias that call used |
| `NoticeBuilder.FooIsNoOp` | tests/Notice/NoticeNoticeTest.php:139-143 | `foo(x)` anywhere in a chain gives the same state, and the same send result, as omitting it |
| `NoticeBuilder.AliasesAgree` | tests/Notice/NoticeNoticeTest.php:132-143 | `withTo`/`withReceiver`/`to`, `withTemplateId`/`withTemplate`/`template`, `withUrl`/`withLink` and `withColor`/`andColor`/`color` each have the same effect |
| `NoticeBuilder.BuilderColorIgnoredByData` | tests/Notice/NoticeNoticeTest.php:161-172 | changing the builder colour changes neither whether send succeeds nor the data it sends |
| `NoticeBuilder.NothingSetFails` | tests/Notice/NoticeNoticeTest.php:115-122 | send on a fresh builder with no parameters fails on `touser`, with a message ending in " can not be empty!" |
| `NoticeBuilder.ExplicitParamsPassThrough` | tests/Notice/NoticeNoticeTest.php:124-130 | explicit `touser` and `template_id` reach the notice-send request unchanged; on a builder holding no data (such as a fresh one), data is sent as an empty mapping when none was supplied |
| `NoticeBuilder.Notice.constructor` | tests/Notice/NoticeNoticeTest.php:25 | a new builder has every slot empty and no data |
| `NoticeBuilder.Notice.Put` | tests/Notice/NoticeNoticeTest.php:132-143 | the canonical slot setter: the new state is the old one with that slot set |
| `NoticeBuilder.Notice.WithTo` | tests/Notice/NoticeNoticeTest.php:132 | sets the recipient and returns the builder |
| `NoticeBuilder.Notice.WithReceiver` | tests/Notice/NoticeNoticeTest.php:139 | sets the recipient and returns the builder |
| `NoticeBuilder.Notice.To` | tests/Notice/NoticeNoticeTest.php:161 | sets the recipient and returns the builder |
| `NoticeBuilder.Notice.WithTemplateId` | tests/Notice/NoticeNoticeTest.php:132 | sets the template id and returns the builder |
| `NoticeBuilder.Notice.WithTemplate` | tests/Notice/NoticeNoticeTest.php:139 | sets the template id and returns the builder |
| `NoticeBuilder.Notice.Template` | tests/Notice/NoticeNoticeTest.php:161 | sets the template id and returns the builder |
| `NoticeBuilder.Notice.WithUrl` | tests/Notice/NoticeNoticeTest.php:132 | sets the url and returns the builder |
| `NoticeBuilder.Notice.WithLink` | tests/Notice/NoticeNoticeTest.php:139 | sets the url and returns the builder |
| `NoticeBuilder.Notice.WithColor` | tests/Notice/NoticeNoticeTest.php:132 | sets the colour and returns the builder |
| `NoticeBuilder.Notice.AndColor` | tests/Notice/NoticeNoticeTest.php:139 | sets the colour and returns the builder |
| `NoticeBuilder.Notice.Color` | tests/Notice/NoticeNoticeTest.php:161 | sets the colour and returns the builder |
| `NoticeBuilder.Notice.Data` | tests/Notice/NoticeNoticeTest.php:161 | sets the data mapping and returns the builder |
| `NoticeBuilder.Notice.Foo` | tests/Notice/NoticeNoticeTest.php:139 | changes nothing and returns the builder |
| `NoticeBuilder.Notice.Send` | tests/Notice/NoticeNoticeTest.php:117-143 | returns `Dispatch` of the current state and the explicit parameters, and leaves the builder unchanged |
| `NoticeScenarios.SendScenario` | tests/Notice/NoticeNoticeTest.php:113-145 | on one builder: send with nothing set fails with " can not be empty!"; explicit `foo`/`bar` are sent with empty data; each alias chain's recipient, template id and url are what is sent |
| `NoticeScenarios.SendTo` | tests/Notice/NoticeNoticeTest.php:161 | the chain `to`, `color`, `template`, `data`, `send` sends that recipient and template id with the normalised data |
| `NoticeScenarios.ScalarDataNormalized` | tests/Notice/NoticeNoticeTest.php:154-172 | the five scalar entries are sent with colour `#173177` |
| `NoticeScenarios.ListDataNormalized` | tests/Notice/NoticeNoticeTest.php:175-191 | the lists keep their own colours, the one-element list and the scalar get `#173177`, and the object becomes the sentinel |
| `NoticeScenarios.RecordDataNormalized` | tests/Notice/NoticeNoticeTest.php:194-207 | the `{value, color}` entries are sent unchanged |
| `NoticeScenarios.FormatDataScenario` | tests/Notice/NoticeNoticeTest.php:150-208 | three sends on one builder whose colour is `color1` produce exactly the data the test expects for scalar, list and record entries |

## Left out

- `setIndustry`, `getIndustry`, `addTemplate`, `getPrivateTemplates` and `deletePrivateTemplate` are left out. They only forward their arguments to a fixed API path.
- The HTTP transport, the access token and the JSON parsing of the response are left out. `Send` returns the request it would hand to the HTTP client.
- API paths are opaque. The notice-send endpoint is a datatype constructor, not a URL string.
- `topcolor` is not modelled. The colour slot is stored, but the request record carries no overall colour, because the test makes no assertion about whether it is forwarded.
- `NoticeBuilder.Notice.Data` replaces the builder's data. The test does not say whether `data(...)` replaces or merges with earlier data.
- `send` leaves the builder's state as it is after each call. Whether the implementation resets it is not observable in the test, because every chain there sets the slots it checks.
- NoticeBuilder.Pick and NoticeBuilder.PickData: an explicit parameter given as `""`, or an explicit empty `data` mapping, falls back to the builder's value. The test makes no such call, so this choice is the model's own.
- Only the empty string counts as a missing value. PHP's wider notion of empty (for example `"0"`) is not modelled.
- Scalars are modelled as strings. Numbers and booleans are not.
- Lists with other than one or two elements are not modelled, because the test has none. Neither are records without a `value` key.
- `NoticeBuilder.ErrorMessage` is stated only as `<field> can not be empty!`. The test checks only the " can not be empty!" part, and the exact wording around the field name is not modelled.
- An empty colour in a `[v, c]` list or a `{value, color}` record, and a record without a colour, are given `#173177`. The test has no such entry, so this choice is the model's own.
- Values are opaque strings. The test shows non-ASCII values only as `?` placeholders, so the scenarios use short ASCII stand-ins under the test's own keys.
