# pychargify marshalling core, modelled in Dafny

This project models the core of `api.py` from pychargify, a Python 2 client for the Chargify subscription-billing REST API. The model covers:

- **Marshalling.** `ChargifyBase` decodes XML into resource objects (`__get_xml_value`, `__get_object_from_node`, `_applyS`, `_applyA`) and encodes objects back (`_toxml`).
- **Response handling.** The status classification that `_get` and `_request` share.
- **Saving.** The create-or-update protocol `_save`, and the resource object whose `saved` attribute it sets.
- **Schemas.** The four resource classes: their class attributes, `__attribute_types__` and `__xmlnodename__`.
- **Helpers.**
  - the whitespace step of `fix_xml_encoding`;
  - the request paths of the façade methods;
  - `createUsage` and its `Usage` records;
  - `_get_auth_string`.

Modules, one per file:

| module | file | what it holds |
|---|---|---|
| `Wrappers` | wrappers.dfy | `Option` and `Result` |
| `Errors` | errors.dfy | the five `ChargifyError` subclasses and the Python built-in errors the code raises |
| `Xml` | xml.dfy | the DOM as a tree; `getElementsByTagName` as a pre-order search that includes the root; text content; `Shape`, a node with sibling order forgotten |
| `Strings` | strings.dfy | `split('\n')`, `strip()`, `''.join`, the whitespace step, `str(int)` and `int(str)` |
| `Schema` | schema.dfy | classes, Python values, instance dictionaries, class defaults, attribute lookup, `str()`, truthiness |
| `Transport` | transport.dfy | status to error or body |
| `Decode` | decode.dfy | the decode methods with their loops, each proved against a specification function |
| `Encode` | encode.dfy | `_toxml` as a method over the instance dictionary in arbitrary order, specified by an order-free shape |
| `Marshal` | marshal.dfy | how encode and decode fit together, and where they do not |
| `Save` | save.dfy | save dispatch, write confirmation, and the class `Resource` with `Save` |
| `Usage` | usage.dfy | `createUsage` |
| `Facade` | facade.dfy | request paths, `getPaymentPageUrl`, the subscription actions, `getBySubscriptionId` |
| `Auth` | auth.dfy | base64 with the alphabet of section 4 of RFC 4648, `encodestring` line wrapping, and the Basic credentials of section 2 of RFC 7617 |

How the model handles the parts of the source that are not plain data:

- **Objects.** An object is its class (`Kind`) plus its instance dictionary, a map from attribute names to values. The class's data attributes are kept separately (`ClassDefaults`), and `GetAttr` reads the instance attribute first, then the class's data attribute. The class metadata `__xmlnodename__`, `__attribute_types__` and `__ignore__` are separate functions (`NodeName`, `AttrTypes`, `Ignore`).
- **Attribute errors.** Python raises AttributeError when neither attribute exists. The model returns `None` there, or an `AttributeError` result where the source lets the exception escape.
- **Dictionary order.** Python 2 leaves the iteration order of `__dict__` unspecified. The encoding method therefore picks attributes in an arbitrary order, and its contract speaks of the multiset of children.
- **Outside collaborators.** The clock, the server's answer and ISO-8601 parsing are parameters:
  - the save date is a `Today` triple;
  - the answer is a status plus a parsed tree;
  - date parsing is `parseTime: string -> DateTime`.
- **Behaviour worth knowing before reading the contracts.**
  - **`_applyS` with zero or several matches.** `_applyS` returns None unless exactly one element carries the name (api.py:166-173, `Decode.ApplyS`). `getBySubscriptionId` instead unpacks the list of `_applyA` with `i, = ...` and raises ValueError for any other number of objects (api.py:495-499, `Facade.BySubscriptionId`).
  - **Write confirmation.** `_save` reads only `updated_at` (api.py:315, 326). Only the subscription class declares that attribute (api.py:459), so for the other classes an answer without it raises AttributeError (`Save.ConfirmRaisesWithoutUpdatedAt`).
  - **Usage records.** `createUsage` flattens the `data` of every child's own children, with `[None]` for a child that has none, and passes the result positionally to `Usage` (api.py:487-489, `Usage.Flatten`, `Usage.ChildData`).
  - **Whitespace step.** `fix_xml_encoding` strips every line, not only whitespace-only text nodes, and joins the lines with no separator (api.py:162, `Strings.StripLines`).

## Model

| member | source | states |
|---|---|---|
| `Transport.Classify` | api.py:216-236 | the status chain: 401, 403, 404 and 422 raise their own error, 405 and 500 raise ServerError, and every other status returns the body |
| `Transport.ClassifyCases` | api.py:276-296 | each error arises from exactly its statuses (both directions); every other status, 200 and 201 included, returns the body unchanged; one function serves both `_get` and `_request` |
| `Transport.StatusErrors` | api.py:216-236 | the definition: the status table 401, 403, 404, 422 to their own errors and 405, 500 to ServerError |
| `Xml.MatchesAreNamedElements` | api.py:171 | every match of `getElementsByTagName` is an element with the searched tag, inside the searched subtree |
| `Xml.MatchesInAreNamedElements` | api.py:180 | the same for the matches among a list of siblings |
| `Xml.NamedChildIsFound` | api.py:171 | conversely, every child element carrying the name is among the matches |
| `Xml.NamedMemberIsFound` | api.py:180 | every sibling element carrying the name is among the matches of the list |
| `Xml.OnlyMatchIsRoot` | api.py:142-144 | when a nested child holds the only element of its own tag in its subtree, the match `_applyS` decodes is that child |
| `Xml.TextOfAppend` | api.py:122-126 | the text of two node lists one after the other is the first text followed by the second |
| `Xml.NoTextNodeNoText` | api.py:122-126 | a node list without TEXT_NODE nodes gives "", whatever its comments, CDATA or elements hold |
| `Xml.TextOfSingle` | api.py:123-125 | one text node contributes its data, any other node nothing |
| `Xml.ShapesOfAppend` | api.py:199 | appending a child adds exactly its shape to the multiset of children |
| `Strings.SplitLines` | api.py:162 | `split('\n')` yields at least one piece and no piece holds a newline |
| `Strings.SplitLinesJoin` | api.py:162 | joining the pieces with '\n' gives back the string |
| `Strings.SplitLinesNoNewline` | api.py:162 | a string without a newline splits into itself alone |
| `Strings.LeadCountSpec` | api.py:162 | the whitespace `strip()` removes at the start is whitespace and ends at the first non-space character |
| `Strings.TrailCountSpec` | api.py:162 | the whitespace `strip()` removes at the end is whitespace and ends at the last non-space character |
| `Strings.StripSpec` | api.py:162 | `strip()` gives a slice `s[i..j]` of its argument with only whitespace before `i` and after `j`, and the slice neither starts nor ends with whitespace |
| `Strings.TightStripFixed` | api.py:162 | `strip()` leaves such a string unchanged |
| `Strings.StripAll` | api.py:162 | the list comprehension strips each line and keeps one result per line, in order |
| `Strings.ConcatNoChar` | api.py:162 | `''.join` of pieces without a character has no such character |
| `Strings.ConcatTight` | api.py:162 | `''.join` of pieces without surrounding whitespace has none either |
| `Strings.StrippedLinesClean` | api.py:162 | joining stripped pieces that hold no newline leaves no newline and no whitespace at either end |
| `Strings.StripLines` | api.py:162 | the whitespace step leaves no newline and no whitespace at either end |
| `Strings.StripLine` | api.py:162 | a stripped line has no newline and no surrounding whitespace |
| `Strings.StripLinesIdempotent` | api.py:162 | applying the whitespace step twice is the same as applying it once |
| `Strings.StripLinesFixesTightLine` | api.py:162 | a single line without surrounding whitespace passes through unchanged |
| `Strings.NatToString` | api.py:197 | `str()` of a natural number is a non-empty string of decimal digits in canonical form: it starts with `0` only for zero, which is `"0"` |
| `Strings.NatToStringValue` | api.py:197 | those digits denote the number |
| `Strings.DigitChar` | api.py:197 | the digit character of a value below ten is a decimal digit, and `0` exactly for zero |
| `Strings.ParseDigits` | api.py:432 | `int()` of a string of digits is their value |
| `Strings.ParseNegativeDigits` | api.py:432 | `int()` of a minus sign and digits is the negated value |
| `Strings.ParseInt` | api.py:432 | `int()` succeeds only on text that, once stripped, is an optional sign and decimal digits; a negative result comes from a minus sign |
| `Strings.IntRoundTrip` | api.py:432 | `int(str(i)) == i` for every integer |
| `Schema.AttrTypes` | api.py:442-446 | customers, products and credit cards declare no nested attributes (their empty `__attribute_types__` at api.py lines 343, 386 and 536); subscriptions declare exactly `customer`, `product` and `credit_card`, of the customer, product and credit-card classes, each with the class default None |
| `Schema.ClassDefaults` | api.py:103-107 | every class declares `id` with the default None |
| `Schema.XmlNodeName` | api.py:344 | the definition: each class's `__xmlnodename__` (also api.py lines 387, 447 and 537), `credit_card_attributes` for the credit card |
| `Schema.UpdatedAtDeclaredBySubscriptionOnly` | api.py:436-463 | `updated_at` is a class attribute of the subscription class and of no other class |
| `Schema.SubscriptionTrialEndField` | api.py:455 | the subscription schema declares the misspelt `trial_ended_attrial_ended_at` and no `trial_ended_at` |
| `Schema.Initial` | api.py:109-116 | the constructor leaves exactly `api_key`, `sub_domain`, `request_host` (sub-domain plus `.chargify.com`) and, when a node name is given, `__xmlnodename__` holding that name |
| `Schema.GetAttr` | api.py:311 | attribute lookup: the instance attribute when present, else the class attribute's value, else an AttributeError (both directions) |
| `Schema.NodeName` | api.py:190 | the definition: the instance `__xmlnodename__`, else the class's; None (the TypeError minidom raises) for a value that is not a string |
| `Schema.Truthy` | api.py:311 | the definition of Python truthiness used by `if self.id` and `memo or ""` (also api.py:481): None, False, 0, '' and {} are false |
| `Schema.PyStrScalars` | api.py:197 | `str()` writes a string as itself, and the decimal text of an integer parses back to it |
| `Schema.PyStr` | api.py:197 | `str()` is empty exactly for the empty string |
| `Decode.GetXmlValue` | api.py:118-126 | the loop returns the concatenated data of the TEXT_NODE nodes, in order |
| `Decode.GetObjectFromNode` | api.py:128-154 | the loop gives a fresh object of the target class, then one assignment per child element with a non-empty tag |
| `Decode.ChildValue` | api.py:139-153 | one iteration: for a name in the decoder's `__attribute_types__`, a nested object (from `_applyS` on the child) or None; otherwise the text, parsed as a datetime for `type="datetime"` and non-empty text |
| `Decode.ApplyS` | api.py:166-173 | an object exactly when the document (root included) has exactly one element of the name, and it is decoded from that element; None for zero or several |
| `Decode.ApplyA` | api.py:175-184 | one object per matching element, the i-th decoded from the i-th match in document order |
| `Decode.DecodeOne` | api.py:166-173 | the specification of `_applyS`: an object exactly when there is one match, of the target class |
| `Decode.DecodeMany` | api.py:175-184 | the specification of `_applyA`: as many objects as matches, [] for none, all of the target class |
| `Decode.ObjectFromNode` | api.py:128-154 | the specification of `__get_object_from_node`: an object of the target class holding the credentials and request host |
| `Decode.FieldsUpTo` | api.py:138-153 | the fields after a prefix of the children keep every attribute the constructor set |
| `Decode.LastNamed` | api.py:138-139 | finds the last child element with the given non-empty tag, or says there is none |
| `Decode.FieldsUpToAt` | api.py:138-153 | after any prefix of the children, a field holds the value of the last child element of its name so far, or else what the constructor left |
| `Decode.DecodedObject` | api.py:132-154 | a decoded object has the target class; a field named after a child element holds the value of the LAST such child; every other field is what the constructor left: the decoder's `api_key` and `sub_domain`, the derived request host, or else the class default |
| `Decode.ElementChildrenOnly` | api.py:139 | text, comment and other non-element children assign nothing |
| `Decode.FieldsOfTextOnly` | api.py:138-139 | the same, for every prefix of such children |
| `Decode.NestedField` | api.py:140-144 | a child whose tag is a key of the DECODER's `__attribute_types__` becomes an object of the mapped class, decoded from that child, unless its subtree holds another element of the same tag, in which case the field is None |
| `Decode.ScalarField` | api.py:146-153 | every other child gives its text, turned into `parseTime(text)` exactly when it has `type="datetime"` and the text is not empty |
| `Encode.EncodableIsNestedOk` | api.py:193-194 | an encoding that can be written raises no AttributeError on a nested attribute |
| `Encode.EmittedKeys` | api.py:191-192 | the definition: the instance attributes outside `__ignore__` |
| `Encode.ChildShapesRemove` | api.py:191 | the children do not depend on the order in which `__dict__` is iterated |
| `Encode.ChildShapesCount` | api.py:191-199 | one child per emitted attribute |
| `Encode.ChildShapesOrigin` | api.py:191-199 | every child comes from some emitted attribute |
| `Encode.EncodingShape` | api.py:186-200 | the element is named after `__xmlnodename__` and has no attributes; it has exactly one child per instance attribute outside `__ignore__`, and none from an ignored one |
| `Encode.ToXml` | api.py:186-200 | the element is built exactly when the object encodes, and its shape is the specification's; otherwise AttributeError (a nested attribute without an object) or TypeError (a node name that is not a string) |
| `Encode.EncodeChildren` | api.py:191-199 | the loop over `__dict__` yields the children specified for all emitted attributes, or the error that stops it |
| `Encode.Visit` | api.py:192-199 | one attribute outside `__ignore__` either fails with AttributeError or extends the children built so far |
| `Encode.EncodeChild` | api.py:193-199 | a nested attribute gives the nested object's own encoding, and any other attribute gives an element named after it that holds `str(value)` |
| `Encode.AppendChild` | api.py:194-199 | appending one more attribute's child adds that attribute's shape |
| `Marshal.CreditCardEncodesUnderAttributesTag` | api.py:531-537 | a subscription's `credit_card` encodes under the tag `credit_card_attributes`, not under the name of the attribute |
| `Marshal.AttributesTagDecodesAsText` | api.py:140-153 | decoding that document stores the tag's text under `credit_card_attributes` and leaves `credit_card` at None, so there is no general round trip |
| `Marshal.InnerLevelsUseOuterTypes` | api.py:140-144 | a `product` element inside a subscription's `customer` element becomes a nested product, because every level consults the outer decoder's `__attribute_types__` |
| `Save.IdOf` | api.py:311 | `self.id` is the attribute lookup of `id` |
| `Save.Dispatch` | api.py:311-324 | a truthy id sends a PUT and a falsy id (None, '' and the like) a POST; a truthy id that is not a string raises TypeError |
| `Save.DispatchPaths` | api.py:312-323 | the PUT goes to `/url/id.xml` and the POST to `/url.xml` |
| `Save.Confirm` | api.py:314-319 | reading `updated_at` raises AttributeError when neither the decoded object nor its class has it |
| `Save.ConfirmSpec` | api.py:314-330 | the save is confirmed exactly when `updated_at` is a datetime whose day, month and year are the request date's; no object means not confirmed |
| `Save.DecodeAnswer` | api.py:312-313 | no object for zero or several matches; with one match, `_applyS` under a decoder with the saved object's class, `api_key` and `sub_domain`; TypeError exactly when there is one match and the `sub_domain` is not a string |
| `Save.SaveOutcome` | api.py:298-331 | AttributeError for an unencodable nested attribute, TypeError for an id or node name that cannot be written, an error status's own error once the request is sent; a result exactly when the request is sent, the status does not raise and the answer decodes and confirms, and then its object is the decoded answer and its flag the confirmation |
| `Save.SaveConfirmed` | api.py:311-331 | `(True, obj)` exactly when the request is sent, the status is not an error, the answer decodes and the confirmation holds |
| `Save.ConfirmRaisesWithoutUpdatedAt` | api.py:315 | for a customer, product or credit card answer with no `updated_at` element, the confirmation raises AttributeError |
| `Save.Resource.constructor` | api.py:355-358 | `__init__` sets the credentials, the request host and, when given, the node name |
| `Save.Resource.SetField` | api.py:141 | assigning an attribute updates that instance attribute and nothing else |
| `Save.Resource.Save` | api.py:298-331 | the outcome is `SaveOutcome`; the request sent is the dispatch's verb and path with the specified encoding; `saved` becomes True only on a confirmed PUT, and nothing else changes |
| `Save.Exchange` | api.py:302-331 | the steps in the order they fail, giving `SaveOutcome` and the request sent |
| `Save.SavedIsEncoded` | api.py:319 | the `saved` attribute a confirmed update sets is emitted by the next encoding |
| `Usage.MakeUsage` | api.py:429-433 | `Usage(id, memo, quantity)` succeeds exactly with three arguments whose third is text `int()` accepts; TypeError for another count or None, ValueError for non-numeric text |
| `Usage.ChildData` | api.py:487-488 | a node with no children gives `[None]`; otherwise one `data` per child, and AttributeError("data") when a child is an element |
| `Usage.FormatD` | api.py:480 | `%d` writes an integer or a bool in decimal (True as 1), text that parses back to the number; any other value raises TypeError |
| `Usage.Flatten` | api.py:487-488 | `chain.from_iterable` fails exactly when some child fails, with AttributeError("data"); otherwise it is every child's values one after the other, at least one per child |
| `Usage.UsageOf` | api.py:487-488 | one `usage` element gives `Usage(*values)` of its flattened values, or AttributeError("data") when flattening fails; it fails only with AttributeError, TypeError or ValueError |
| `Usage.UsagesOf` | api.py:487-489 | the list comprehension succeeds exactly when every `usage` element does, giving one record per element in order; otherwise it raises the error of the first element that fails |
| `Usage.ParseUsages` | api.py:489 | the definition: `UsagesOf` over every `usage` element of the answer, root included |
| `Usage.UsagePath` | api.py:484-485 | the path frames `str(self.id)` and the `%d` text of the component id, which parses back to it; TypeError exactly when `%d` rejects the component id |
| `Usage.UsageBody` | api.py:479-481 | the body frames the `%d` text of the quantity, which parses back, and the memo text; TypeError exactly when `%d` rejects the quantity |
| `Usage.MemoText` | api.py:481 | `memo or ""` is empty exactly when the memo is falsy, and otherwise `str(memo)` as `%s` writes it |
| `Usage.CreateUsage` | api.py:474-489 | a POST to `/subscriptions/<id>/components/<component>/usages.xml` with the quantity and memo in the body is sent exactly when both `%d` succeed, else TypeError and no request; an error status raises its error, else the answer is parsed into records |
| `Usage.ChildDataSingle` | api.py:487-488 | a child holding one text node contributes exactly its data |
| `Usage.FlattenSingles` | api.py:487-488 | children holding one text node each flatten to their data, in order |
| `Usage.PositionalUsage` | api.py:487-489 | three single-text children map positionally to id, memo and quantity, and the quantity's decimal text parses back |
| `Usage.EmptyChildGivesNone` | api.py:488 | an empty `<memo/>` gives the memo None, not '' |
| `Usage.ArityMatters` | api.py:487 | any number of flattened values other than three raises TypeError |
| `Facade.Concatenable` | api.py:505 | concatenating `self.id` works exactly for a string, otherwise TypeError |
| `Facade.CustomerPath` | api.py:364-366 | `getById` reads `/customers/<str(id)>.xml`, from which the id text can be cut back out |
| `Facade.CustomerLookupPath` | api.py:368-370 | `getByReference` reads `/customers/lookup.xml?reference=<str(reference)>` |
| `Facade.CustomerSubscriptionsPath` | api.py:491-493 | `getByCustomerId` reads `/customers/<str(id)>/subscriptions.xml` |
| `Facade.ProductPath` | api.py:407-409 | `getById` reads `/products/<str(id)>.xml` |
| `Facade.ProductHandlePath` | api.py:411-413 | `getByHandle` reads `/products/handle/<str(handle)>.xml` |
| `Facade.SubscriptionPath` | api.py:495-499 | `getBySubscriptionId` reads `/subscriptions/<str(id)>.xml` |
| `Facade.CreditCardSavePath` | api.py:559-560 | a credit card is saved to `/subscriptions/<str(subscription id)>.xml` |
| `Facade.PaymentPageUrl` | api.py:418-420 | the hosted page URL `https://<request host>/h/<id>/subscriptions/new`, and TypeError, and only TypeError, unless both are strings |
| `Facade.SubscriptionAction` | api.py:504-528 | reset_balance, reactivate and upgrade are PUTs and unsubscribe is a DELETE; the path is `/subscriptions/<id>.xml` for upgrade and unsubscribe and `/subscriptions/<id>/<action>.xml` otherwise; the body is empty for reset_balance and reactivate and frames `str(arg)` in the upgrade or cancellation template; TypeError exactly for an id that is not a string |
| `Facade.SaveUpdatesTheByIdPath` | api.py:364-366 | an update goes to the path `getById` reads, for customers, products and subscriptions |
| `Facade.SaveCreatesAtTheCollectionPath` | api.py:360-362 | a create goes to the collection path `getAll` reads |
| `Facade.BySubscriptionId` | api.py:495-499 | the unpacking `i, = ...` fails only with ValueError |
| `Facade.BySubscriptionIdAgreesWithApplyS` | api.py:495-499 | it succeeds exactly when `_applyS` would find one object, and gives that object |
| `Auth.SextetRoundTrip` | api.py:334 | each 6-bit value's base64 character decodes back to it |
| `Auth.CharsRoundTrip` | api.py:334 | a sequence of base64 codes, padding included, written as characters reads back to itself |
| `Auth.Sextets` | api.py:334 | every code base64 gives three bytes is a 6-bit value or the padding code |
| `Auth.Base64` | api.py:334 | base64 text holds no newline |
| `Auth.Base64Length` | api.py:334 | base64 of n bytes is 4 × ⌈n/3⌉ characters |
| `Auth.Base64RoundTrip` | api.py:334 | decoding undoes the encoding |
| `Auth.Base64Append` | api.py:334 | base64 of a prefix whose length is a multiple of three is the prefix's base64 followed by the rest's |
| `Auth.WrappedLines` | api.py:334 | `encodestring` writes one line exactly when there are at most 57 bytes |
| `Auth.EncodeString` | api.py:334 | `encodestring` is empty exactly for no bytes, and otherwise ends in a newline |
| `Auth.DropLast` | api.py:334 | `[:-1]` drops only the last character |
| `Auth.Latin` | api.py:334 | the byte string of the credentials exists exactly when every character is below 256, and holds their codes |
| `Auth.Credentials` | api.py:334 | `api_key:x`: the key as `%s` writes it, followed by `:x`, so the key can be read back from the credentials |
| `Auth.EncodeStringLines` | api.py:334 | the auth string splits at newlines into exactly the base64 lines of the 57-byte chunks |
| `Auth.AuthString` | api.py:333-334 | the auth string exists exactly when the credentials are bytes, and is `encodestring` of them less only its final newline |
| `Auth.WrappedLineLengths` | api.py:334 | no line is longer than 76 characters, and every line but the last is exactly 76 |
| `Auth.WrappedLinesConcat` | api.py:334 | the lines, put together, are the unwrapped base64 of all the bytes |
| `Auth.AuthStringBreaksLines` | api.py:333-334 | the auth string holds a newline exactly when the credentials `api_key:x` are longer than 57 bytes |
| `Auth.AuthStringDecodes` | api.py:333-334 | the lines of the auth string, put back together, decode to the credentials |
| `Auth.LongKeyBreaksHeader` | api.py:333-334 | an API key of 56 characters puts a newline into the auth string |
| `Auth.AuthToken` | api.py:333-334 | the corrected token exists exactly when the credentials are bytes; it has no newline and decodes to the credentials |
| `Auth.AuthTokenAgreesOnShortKeys` | api.py:333-334 | for credentials of at most 57 bytes, the corrected token is exactly the auth string as written |

## Left out

- The `obj_type == ''` branch of `__get_object_from_node` (api.py:132-133) is never reached, because every caller passes a class name. The class lookup by name through `globals()` is the `Kind` value.
- `iso8601.parse` with `datetime.fromtimestamp` (api.py:151-152) converts time zones and float timestamps. It is the parameter `parseTime`, and its parse errors are not modelled.
- The character re-encoding half of `fix_xml_encoding` (api.py:162-164) is codec library behaviour: CP1252 and UTF-8 transcoding, and XML character references. The whitespace step is modelled, as `Strings.StripLines`.
- minidom parsing and serialisation are library code.
  - The server's answer is given as an already-parsed tree.
  - The request body is the element tree `_toxml` builds.
  - Where the source re-serialises a nested child and parses it again (api.py:142), the decode recurses on the child's subtree.
- `Usage.CreateUsage`: `%d` of a float truncates it (2.7 is written 2). `Value` has no floats, so this is not modelled; the integers, bools and the TypeError of every other value are.
- Python 2's `str()` of a unicode value holding non-ASCII characters raises UnicodeEncodeError in `_toxml`. Strings are modelled as sequences of characters with no encoding, so this error is not.
- `str()` of an object prints a memory address. The model writes only the class name, because the address is not determined.
- The `httplib` connections, headers, sending and reading (api.py:202-214, 256-274) are network I/O. So are the `print` of the request body (api.py:271) and the `json` import fallback with `exit()` (api.py:30-41).
- `Transport.Classify`: `_get` and `_request` run the same status chain, so one function models both. The verb and path appear only in the requests the model builds.
- `ChargifyPostBack` (api.py:582-601) and the `Chargify` entry point (api.py:604-644) are left out. They are JSON and credential-file I/O, and they call the façades.
- `getPriceInDollars` and `getFormattedPrice` (api.py:422-426) use float division, rounding and formatting.
- The façade methods are modelled as the requests they build; only `getBySubscriptionId` is also composed with its decode. The getters and `upgrade` hand the answer to `_applyS` or `_applyA`, which are modelled on their own, but no member chains request, transport and decode for them. `resetBalance`, `reactivate` and `unsubscribe` only issue `_put` or `_delete` and return nothing, so their request is all they do.
  - `ChargifyCreditCard.save` (api.py:559-579) is modelled only by its path (`CreditCardSavePath`). Its template body is not modelled.
- `_save` reads the clock three times (api.py:306-308). A date change between the reads is not modelled; the date is one `Today` triple.
- `Save.DecodeAnswer`: a `sub_domain` that is not a string raises TypeError only where the answer is decoded. The constructor of `Resource` takes a string sub-domain, as the façades pass.
- `Auth.AuthString` gives None for credentials holding a character above 255. Python 2 would raise a UnicodeEncodeError there or encode a byte string; the model does not distinguish these.
- `Strings.ParseInt` accepts surrounding whitespace, one sign and decimal digits. Whitespace between the sign and the digits, and the other literal forms Python 2's `int()` may take, are not modelled.
- `Schema.GetAttr` does not find the class metadata (`__xmlnodename__`, `__attribute_types__`, `__ignore__`, `__name__`, api.py:100 and 342-344): it reports AttributeError for those names where Python finds the class attribute. `Value` has no list or non-empty dictionary to hold them, and the model reads them only through `Schema.NodeName`, `Schema.AttrTypes` and `Schema.Ignore`.
- tests.py is a demonstration script against the live service. It makes no assertions, so nothing in it is modelled.

## Findings

| source | as written | input that shows it | evidently intended | confidence | as-written member | corrected member |
|---|---|---|---|---|---|---|
| api.py:333-334 | `base64.encodestring` starts a new line after every 57 bytes of input, and `[:-1]` removes only the final newline, so credentials longer than 57 bytes leave a newline inside the `Authorization: Basic` header value | an API key of 56 characters, `'a' * 56`, which makes 58 bytes of credentials `api_key:x` | the single-line base64 token of section 2 of RFC 7617, as `base64.b64encode` gives it | medium, not executed | `Auth.LongKeyBreaksHeader` (about `Auth.AuthString`) | `Auth.AuthToken` |
