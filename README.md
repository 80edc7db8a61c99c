# OCS envelope and download response, modelled in Dafny

This project models two pieces of the public app framework of an ownCloud
server core:

- `OCSController`, the base class of controllers that answer in the Open
  Collaboration Services (OCS) format. Its constructor hands CORS settings
  to the parent API controller (with documented defaults) and registers a
  `json` and an `xml` responder. Each responder calls `buildOCSResponse`,
  which unwraps a `DataResponse`, starts from a dictionary of nine envelope
  defaults, overwrites it in place with every entry of the caller's data,
  and reads the nine envelope fields, in a fixed order, into the response.
- `DownloadResponse`, whose constructor stores a filename and a content type
  and adds two headers: `Content-Disposition: attachment; filename="<name>"`
  (section 4 of RFC 6266) and `Content-Type: <type>`.

Files:

- `wrappers.dfy`: `Option`.
- `php_values.dfy`: PHP values. A PHP array is the sequence of its entries in
  iteration order; `DistinctKeys` says no key repeats, as in any PHP array.
  `Entries` is what `foreach` visits (nothing for a scalar or `null`).
- `ocs_controller.dfy`: module `OCS`. `Overlay` and `Envelope` are the
  specification of the builder; `LastValue` ("the value of the last entry
  with this key") is an independent reference for the overlay. The class
  `OCSController` holds the CORS settings and the responders; its
  `BuildOCSResponse` is the loop of the source, proved equal to `Envelope`.
- `download_response.dfy`: module `Download`. `ContentDisposition` builds the
  header value and `FilenameOf` takes it apart again; the class
  `DownloadResponse` keeps its fields and the headers added, in call order.

## Model

| member | source | states |
|---|---|---|
| `OCS.Overlay` | lib/public/appframework/ocscontroller.php:84-86 | after the overwrite loop the dictionary's keys are the base keys plus the caller's keys: the loop only adds or overwrites, never removes |
| `OCS.OverlayAt` | lib/public/appframework/ocscontroller.php:84-86 | after the loop each key holds the value of the last entry that carries it, or its base value when no entry does; a key is present iff it was in the base or in some entry |
| `OCS.KeysOfHasEntry` | lib/public/appframework/ocscontroller.php:84-86 | a key is among the keys the loop writes iff some entry carries it |
| `OCS.LastValueOfDistinct` | lib/public/appframework/ocscontroller.php:84-86 | in a PHP array (no repeated key) the last entry for a key is that key's only entry |
| `OCS.LastValueAbsent` | lib/public/appframework/ocscontroller.php:84-86 | no last value for a key iff no entry carries it |
| `OCS.ParamsKeys` | lib/public/appframework/ocscontroller.php:72-86 | the final dictionary's keys are the nine default keys together with the caller's keys |
| `OCS.FieldIsParam` | lib/public/appframework/ocscontroller.php:88-93 | each of the nine response fields is the dictionary entry of its own key |
| `OCS.EnvelopeOfEmptyData` | lib/public/appframework/ocscontroller.php:72-93 | with an empty array the response is status `OK`, statuscode 100, message `OK`, data `[]`, tag `''`, tagattribute `''`, dimension `dynamic`, itemscount `''`, itemsperpage `''` |
| `OCS.EnvelopeOfNonArray` | lib/public/appframework/ocscontroller.php:84-86 | a scalar or null payload is not iterated, so the response holds the defaults |
| `OCS.PresentKeyVerbatim` | lib/public/appframework/ocscontroller.php:84-93 | an envelope key present in the caller's array reaches its field verbatim |
| `OCS.AbsentKeyDefault` | lib/public/appframework/ocscontroller.php:72-93 | an envelope key absent from the caller's data keeps its default |
| `OCS.OtherKeysIgnored` | lib/public/appframework/ocscontroller.php:84-93 | two payloads that agree on the nine envelope keys give the same response, whatever other keys they carry |
| `OCS.DataResponseUnwrapped` | lib/public/appframework/ocscontroller.php:68-70 | a `DataResponse` gives the same response as its data passed directly |
| `OCS.OCSController.BuildOCSResponse` | lib/public/appframework/ocscontroller.php:67-94 | the in-place overwrite loop yields the response `Envelope` specifies, tagged with the given format (loop invariant: the dictionary is the overlay of the entries visited so far) |
| `OCS.OCSController.InvokeResponder` | lib/public/appframework/ocscontroller.php:53-58 | a registered responder builds the envelope with the format it was registered with; an unregistered name yields nothing |
| `OCS.OCSController.RegisterResponder` | lib/public/appframework/ocscontroller.php:53-58 | registering records the responder under its name and changes no other state |
| `OCS.OCSController.constructor` | lib/public/appframework/ocscontroller.php:46-59 | the CORS arguments reach the parent's state unchanged, and exactly the `json` and `xml` responders are registered, each with its own format |
| `OCS.ConstructedResponders` | lib/public/appframework/ocscontroller.php:53-58 | on a new controller the `json` responder builds a `json` envelope and the `xml` responder an `xml` one |
| `OCS.ConstructedCorsDefaults` | lib/public/appframework/ocscontroller.php:46-52 | without CORS arguments the parent receives methods `PUT, POST, GET, DELETE, PATCH`, headers `Authorization, Content-Type, Accept` and max-age 1728000 |
| `Download.ContentDisposition` | lib/public/appframework/http/downloadresponse.php:42 | the value is the 22-character prefix `attachment; filename="`, the filename, and a final `"`; its length is the filename's plus 23 |
| `Download.DispositionRoundTrip` | lib/public/appframework/http/downloadresponse.php:42 | removing the prefix and the final quote recovers the filename exactly |
| `Download.DispositionOfFilename` | lib/public/appframework/http/downloadresponse.php:42 | every value of that shape is the header built from the filename it contains |
| `Download.FilenameNotEscaped` | lib/public/appframework/http/downloadresponse.php:42 | the filename is inserted without escaping: a `"` or `\` in it appears in the value as it is (the value holds two more `"` than the name, and as many `\`) |
| `Download.DownloadResponse.constructor` | lib/public/appframework/http/downloadresponse.php:38-44 | the fields hold the arguments unchanged, and exactly two headers are added: `Content-Disposition` first, then `Content-Type` with the content type verbatim |
| `Download.DownloadResponse.AddHeader` | lib/public/appframework/http/downloadresponse.php:42-43 | a header is recorded after the ones already added, and the fields are unchanged |

## Left out

- The serialisation of `OCSResponse` to JSON or XML, the CORS handling of the
  parent API controller and the dispatch from a request to a responder are
  in classes that are not part of this model; only the arguments they
  receive are modelled.
- The `IRequest` constructor argument is not modelled: the constructor only
  passes it on.
- Responders are closures in the source; the model records, per responder
  name, the format tag its closure passes to the envelope builder.
- The parent controller's own responders and the parent response's initial
  headers are not part of this model; both start empty here.
- `Download.DownloadResponse.AddHeader`: the parent's `addHeader` is not part of this model; it is modelled
  only as recording `(name, value)` in call order, with no overwriting or
  case folding of names.
- A payload that is an object other than a `DataResponse` (PHP would iterate
  its public properties) and floating-point values are not modelled.
- PHP's conversion of numeric-string keys to integer keys happens when an
  array is built, before the builder sees it; keys are taken as given.
- HTTP emission and the localisation table, the defaults accessor and the
  app-manager interface shipped beside these classes hold no logic to model.
