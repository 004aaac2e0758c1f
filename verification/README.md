# py-pkpass in Dafny

A model of py-pkpass, a Python library that builds Apple Wallet passes.
The model covers both versions of the library:

- **Current version.** Its files are `wallet/Pass.py`, `wallet/PassProps/*`,
  `wallet/PassInformation/PassInformation.py` and `wallet/PassStyles/BoardingPass.py`.
- **Legacy version.** The single module `wallet/models.py`.

A pass collects these parts:

- Text, date, number and currency **fields** in five **groups** (header,
  primary, secondary, back and auxiliary).
- A **style**: generic, store card, coupon, event ticket, or boarding pass
  with a transit type.
- **Barcodes**, **locations**, **iBeacons** and top-level attributes.
- Asset files.

`json_dict` turns a pass into the `pass.json` document. `create` then does
four things:

1. It renders that document.
2. It records a SHA-1 manifest of the document and of every asset.
3. It has `openssl smime` sign the manifest.
4. It lists the archive entries.

Everything is stated with pure functions over immutable data.

- **Values.**
  - A Python value handed to the library is a `Values.Json`. Python
    truthiness is `Values.Truthy`.
  - A keyword-argument dictionary is a `map<string, Json>`.
  - A Python `dict` that is built up step by step is an `OrderedMaps.OMap`.
    This is an insertion-ordered list of pairs. Its `Put` keeps an existing
    key in its place, as `d[k] = v` does.
- **Exceptions.** An exception is an `Errors.Error`.
  - A `KeyError` names the missing key, so the order of the checks can be
    seen.
  - A list or dict used as a lookup key is `Unhashable`.
  - A failed `float()` is `NotANumber`, and its `OverflowError` on an int
    too large for a double is `FloatOverflow`.
  - A string method applied to a non-string is `WrongType`.
  - A `PassParameterException` carries its reason.
- **What the model cannot compute** is passed in as a function parameter:
  - `parseText`: `float()` applied to a string.
  - `isDate`: whether `strptime` accepts a string with
    `%Y-%m-%dT%H:%M:%S.%f%z`.
  - `sha1`: `hashlib.sha1(...).hexdigest()`.
  - `render`: `json.dumps(...).encode("utf-8")`.
  - `signer`: the openssl process. It takes the argument vector and the
    standard input, and gives back the exit code, standard output and
    standard error.

Modules follow the source files:

| module | file | what it models |
|---|---|---|
| `Wrappers` | `wrappers.dfy` | `Option` and `Result` |
| `Errors` | `errors.dfy` | the exceptions |
| `OrderedMaps` | `ordered_map.dfy` | Python dicts |
| `Values` | `values.dfy` | Python values and their truthiness |
| `Fields` | `field.dfy` | `Field`, `DateField`, `NumberField`, `CurrencyField` |
| `Barcodes` | `barcode.dfy` | barcodes |
| `Locations` | `location.dfy` | locations |
| `IBeacons` | `ibeacon.dfy` | iBeacons |
| `Nfc` | `nfc.dfy` | NFC payloads |
| `PassStyles` | `pass_styles.dfy` | the styles and transit types |
| `PassInfo` | `pass_information.dfy` | the field groups and `add_*_field` |
| `BoardingPasses` | `boarding_pass.dfy` | the boarding-pass style |
| `Passes` | `pass.dfy` | the pass, `add_file` and `json_dict` |
| `PassDocument` | `pass_document.dfy` | the lemmas about the current `pass.json` |
| `Bundles` | `bundle.dfy` | manifest, signing, archive entries and `create` |
| `LegacyChecks` | `legacy_checks.dfy` | `check_subfields` and `field_checks` |
| `LegacyProps` | `legacy_props.dfy` | the legacy fields and locations |
| `LegacyPasses` | `legacy_pass.dfy` | the legacy `json_dict` and `create` |

Where the types are the same, both versions share them:

- The legacy `Barcode`, `IBeacon`, `PassInformation`, style classes, `Pass`
  constructor and `add_file` do what the current ones do. The legacy ones
  are wallet/models.py:211-238, 273-294, 297-413, 416-490 and 492-498.
- The legacy field constructors are the current ones applied without
  `attributed_value`, as `LegacyProps.LegacyVariantsAreCurrent` states.

The model keeps these quirks of the code as written:

- **Fused names.** Adjacent string literals fuse into one name:
  - `"suppressStripShine" "relevantDate"` becomes one name in both versions.
  - `'locations' 'ibeacons'` becomes one name in the legacy version.

  No attribute has a fused name. So `suppressStripShine` and `relevantDate`
  never reach `pass.json`, and neither do the legacy `locations` and
  `ibeacons`.
- **Required fields.** The list of required keys names `organizationName`
  twice and never names `passTypeIdentifier`.
- **Locations.** A pass with ten or more locations is refused.
- **Header fields.** The legacy version refuses more than three.
- **Date styles.** The legacy date check treats `PKDateStyleNone` as a set
  style, because it is a non-empty string.
- **Back fields.** No version checks them.
- **Legacy `barcode`.** The legacy version adds the single `barcode` key
  last.

Where the library's documented intent and its code differ, the model follows
the code:

- **Checks only the legacy version makes.** Only the legacy version checks
  three things:
  - whether `webServiceURL` starts with `https://`;
  - the number of header fields;
  - the timestamp format of date-styled fields.

  The current version makes none of these checks.
- **Attributes that never appear.** `suppressStripShine` and `relevantDate`
  are never emitted, because of the fused names.
- **The location limit** is written as `len(...) >= 10`.
- **The default serial number** is the empty string in both versions. It is
  not generated per pass.
- **Temporary certificate files** (`filemode=False`) are not removed
  explicitly. They are not modelled either (see below).
- **NFC.** A pass has no NFC attribute. `NFC` is a value object that no other
  code uses.

## Model

| member | source | states |
|---|---|---|
| Barcodes.NewBarcode | wallet/PassProps/Barcode.py:14-30 | A missing `format`, then a missing `message`, raises `KeyError`. A list or dict `format` raises `TypeError`. Otherwise the constructor succeeds. `pdf417`, `qr` and `aztec` map to their `PKBarcodeFormat…` constants, and any other format becomes the literal `"qr"`. The message is kept, the encoding defaults to `iso-8859-1` and the alt text defaults to `""`. |
| Barcodes.FormatLookup | wallet/models.py:227-231 | The format table never raises on a hashable argument. `pdf417`, `qr` and `aztec` give their constants, and any other hashable argument gives the default, the literal `"qr"`. |
| Barcodes.NewBarcodeLayout | wallet/PassProps/Barcode.py:32-34 | A barcode's dictionary has exactly `format`, `message`, `messageEncoding` and `altText`, in that order. `format` holds the table's constant for `pdf417`, `qr` and `aztec`, and the literal `"qr"` for any other format. The other three hold the message and the encoding and alt-text arguments or their defaults. |
| Barcodes.QrHelloExample | wallet/PassProps/Barcode.py:14-34 | A QR barcode with message `hello` serialises to `{"format": "PKBarcodeFormatQR", "message": "hello", "messageEncoding": "iso-8859-1", "altText": ""}`. |
| Fields.AlignmentLookup | wallet/PassProps/Field.py:32-38 | The alignment lookup never raises on a hashable argument. The five names give their `PKTextAlignment…` constants, and anything else gives `None`. |
| Fields.DateStyleLookup | wallet/PassProps/Field.py:63-72 | The same for the five date styles. |
| Fields.NumberStyleLookup | wallet/PassProps/Field.py:96-101 | The same for the four number styles. |
| Fields.NewField | wallet/PassProps/Field.py:23-38 | A missing `key`, then a missing `value`, raises `KeyError`. An unhashable alignment raises `TypeError`. Otherwise the constructor succeeds. `key` and `value` are kept, and `label` defaults to `""`. `attributedValue` and `changeMessage` exist exactly when their keywords were given, and hold them. The alignment defaults to left. |
| Fields.NewDateField | wallet/PassProps/Field.py:62-73 | The text field's errors come first, then an unhashable date or time style. On success the result is the text field plus both styles (default short) and `isRelative` (default false). |
| Fields.NewNumberField | wallet/PassProps/Field.py:95-102 | The text field's errors come first, then an unhashable number style, then the error of a value that `float()` refuses: `ValueError`/`TypeError`, or `OverflowError` for a huge int. On success the value is replaced by its float and the style defaults to decimal. Nothing else of the text field changes. |
| Fields.NewCurrencyField | wallet/PassProps/Field.py:124-126 | The text field's errors come first, then a missing `currency_code`, then the error of a value that `float()` refuses, an overflow included. On success the field carries the code and the float value. |
| Fields.FieldJsonMembers | wallet/PassProps/Field.py:40-42 | A field's dictionary has unique keys. Every attribute appears under its own name and holds its value. The optional attributes appear exactly when they are set. `dateStyle`, `timeStyle` and `isRelative` appear exactly for a date field, `numberStyle` exactly for a number field and `currencyCode` exactly for a currency field. |
| Fields.NewFieldLayout | wallet/PassProps/Field.py:23-42 | A text field's keys come in the order the constructor sets them: `key`, `attributedValue` if given, `value`, `label`, `changeMessage` if given, `textAlignment`. |
| Fields.NewDateFieldLayout | wallet/PassProps/Field.py:71-77 | A date field adds `dateStyle`, `timeStyle` and `isRelative` after the text field's keys. |
| Fields.NewNumberFieldLayout | wallet/PassProps/Field.py:96-106 | A number field adds `numberStyle` last. The converted `value` stays in its original position. |
| Fields.NewCurrencyFieldLayout | wallet/PassProps/Field.py:125-130 | A currency field adds `currencyCode` last. The converted `value` stays in its original position. |
| Locations.NewLocation | wallet/PassProps/Location.py:19-26 | The constructor raises only `OverflowError`, exactly when a coordinate is an int too large for a double, since that exception is not caught. Otherwise each coordinate is the parsed argument when `float()` accepts it, and 0.0 when it is missing or refused with `ValueError` or `TypeError`. `distance` is set exactly when given, and `relevantText` defaults to `""`. |
| Locations.HugeLatitudeRaises | wallet/PassProps/Location.py:19-23 | A latitude of 2**1024 - 2**970 raises `OverflowError`. |
| Locations.NewLocationLayout | wallet/PassProps/Location.py:28-30 | A constructed location's dictionary has the three coordinates, then `distance` exactly when it was given, then `relevantText`. |
| IBeacons.NewIBeacon | wallet/PassProps/IBeacon.py:13-17 | A missing `proximity_uuid`, `major` or `minor` raises `KeyError` for the first missing one, in that order. Otherwise the three are kept and `relevantText` defaults to `""`. |
| IBeacons.NewIBeaconLayout | wallet/PassProps/IBeacon.py:19-21 | A beacon's dictionary has its four keys in order, each holding its argument. |
| Nfc.NewNfcLayout | wallet/PassProps/NFC.py:2-11 | An NFC payload's dictionary has its three arguments in parameter order, unchanged. |
| Nfc.NfcDefaultNoAuthentication | wallet/PassProps/NFC.py:3 | Authentication is not required unless asked for. |
| PassStyles.NamesIdentify | wallet/models.py:369-413 | Two styles have the same `jsonname` exactly when both are boarding passes or both are the same other style. Two transit types have the same constant exactly when they are equal. |
| PassInfo.NewPassInformation | wallet/PassInformation/PassInformation.py:9-14 | Every group of a new style starts empty. |
| PassInfo.Append | wallet/PassInformation/PassInformation.py:23 | Appending to one group adds the field at its end and leaves the other groups and the style alone. |
| PassInfo.AddField | wallet/PassInformation/PassInformation.py:16-59 | Each `add_*_field` succeeds exactly when `Field(**kw)` does, and raises the field's own error otherwise. On success it appends that field to its own group only. |
| PassInfo.FieldsJson | wallet/PassInformation/PassInformation.py:74 | Serialising a group gives one dictionary per field, in order. |
| PassInfo.FieldsJsonAppend | wallet/PassInformation/PassInformation.py:74 | Serialising a longer list puts the new fields' dictionaries after the old ones. |
| PassInfo.GroupsJsonKeys | wallet/PassInformation/PassInformation.py:61-76 | The groups' dictionary always has all five group names, in the order header, primary, secondary, back, auxiliary, including empty groups. |
| PassInfo.GroupsJsonLayout | wallet/PassInformation/PassInformation.py:73-75 | Each group name holds the serialised list of that group's fields. |
| PassInfo.AddFieldJson | wallet/PassInformation/PassInformation.py:16-76 | After `add_*_field`, the group's serialised list gains the new field's dictionary at its end. The keys and the other groups are unchanged. |
| BoardingPasses.NewBoardingPass | wallet/PassStyles/BoardingPass.py:8-11 | A boarding pass carries the given transit type, has `jsonname` `boardingPass`, and starts with empty groups. |
| BoardingPasses.BoardingPassJsonKeys | wallet/PassStyles/BoardingPass.py:13-16 | A boarding pass's dictionary has the five group names, then `transitType` last. |
| BoardingPasses.BoardingPassJsonValues | wallet/PassStyles/BoardingPass.py:13-16 | The groups serialise as for any style, and `transitType` holds the `PKTransitType…` constant. |
| BoardingPasses.DefaultIsAir | wallet/models.py:372-376 | Without an argument the transit type is air, emitted as `PKTransitTypeAir`. |
| Passes.NewPass | wallet/Pass.py:23-92 | The constructor raises `KeyError` for the first missing one of `team_identifier`, `pass_type_identifier`, `organization_name` and `pass_information`. Otherwise it keeps them. The serial number and description are `""`, the format version is 1 and `suppressStripShine` is false. The lists and assets start empty, and the optional attributes are `None`. |
| Passes.AddFile | wallet/Pass.py:94-100 | A new name goes last. A name already present keeps its position and takes the new contents. No other file and no other attribute of the pass changes. |
| Passes.FirstMissing | wallet/Pass.py:268-270 | The required check passes exactly when every listed name is a key. A reported name is listed and absent. |
| PassDocument.EmitTruthyKeys | wallet/Pass.py:237-241 | The simple-field loop appends, in list order, exactly the names that are attributes with truthy values. |
| PassDocument.EmitTruthyGet | wallet/Pass.py:237-241 | After the loop, an emitted name holds its attribute, and any other key keeps its earlier value. |
| PassDocument.EmittedMembers | wallet/Pass.py:238-240 | A name is emitted exactly when it is listed, is an attribute, and is truthy. |
| PassDocument.DocumentKeys | wallet/Pass.py:235-258 | `pass.json` has these keys, with no duplicates: the style key, then the emitted simple fields in list order, then `barcodes` if the list is non-empty, then `locations` if that list is non-empty. `ibeacons` keeps its place among the simple fields. |
| PassDocument.DocumentValues | wallet/Pass.py:235-258 | The style key holds the groups' dictionary. An emitted field, `barcodes` or `locations` holds its attribute, the lists as their items' dictionaries. Every other name is absent. |
| PassDocument.RequiredCheck | wallet/Pass.py:260-270 | The final check reports the first falsy attribute among description, formatVersion, organizationName, serialNumber and teamIdentifier, in that order, and nothing when all are truthy. |
| PassDocument.JsonDictVerdict | wallet/Pass.py:210-271 | `json_dict` refuses ten or more locations first, then the first falsy required attribute. It succeeds exactly when neither happens, and then returns the assembled document. |
| PassDocument.PassTypeIdentifierUnchecked | wallet/Pass.py:260-267 | Changing `passTypeIdentifier` never changes whether `json_dict` succeeds. |
| PassDocument.SuppressStripShineNeverEmitted | wallet/Pass.py:221 | `suppressStripShine` is never a key of `pass.json`. |
| PassDocument.RelevantDateNeverEmitted | wallet/Pass.py:221 | `relevantDate` is never a key of `pass.json`. |
| PassDocument.FusedNameNeverEmitted | wallet/Pass.py:221 | The fused name `suppressStripShinerelevantDate` is never a key either. |
| PassDocument.BarcodeNeverEmitted | wallet/Pass.py:214-258 | The current version never emits the single `barcode` attribute. |
| PassDocument.FreshPassRejected | wallet/Pass.py:260-270 | A freshly constructed pass is refused with `Field description missing`. |
| PassDocument.BarcodesInDocument | wallet/Pass.py:243-246 | `barcodes` is a key exactly when the list is non-empty. It then holds the barcodes' dictionaries in order. |
| PassDocument.LocationsInDocument | wallet/Pass.py:248-253 | `locations` is a key exactly when the list is non-empty. It then holds the locations' dictionaries in order. |
| PassDocument.IBeaconsInDocument | wallet/Pass.py:255-258 | `ibeacons` is a key exactly when the list is non-empty. It then holds the beacons' dictionaries, at the position the simple-field loop gave it. |
| Bundles.DigestsGet | wallet/Pass.py:143-144 | The digest recorded for an asset is the SHA-1 of its contents. No other name gets a digest from the assets. |
| Bundles.HashesJsonKeys | wallet/Pass.py:145 | The manifest dictionary handed to `json.dumps` has the digest map's names, in its order. |
| Bundles.HashesJsonGet | wallet/Pass.py:145 | Each name in the manifest dictionary holds its digest as a string, and no other name is present. |
| Bundles.ManifestKeys | wallet/Pass.py:142-145 | The manifest's names are the earlier ones, with `pass.json` in its old place or appended, followed by the new asset names in the order they were added. |
| Bundles.ManifestGet | wallet/Pass.py:142-144 | Each name holds its asset's digest. Otherwise `pass.json` holds the document's digest, and any other name keeps its earlier digest. An asset named `pass.json` overrides the document's digest. |
| Bundles.ManifestUnique | wallet/Pass.py:142-144 | The manifest never lists a name twice. |
| Bundles.FreshManifestKeys | wallet/models.py:526-529 | On a fresh pass the manifest lists `pass.json` first, then the assets in the order they were added. |
| Bundles.RecreateMatchesFresh | wallet/Pass.py:136-145 | The digests persist on the pass. A second `create`, after adding more assets, gives the same manifest as a fresh pass would. |
| Bundles.AddFileExtends | wallet/Pass.py:94-100 | `add_file` keeps the asset names unique and never loses one. |
| Bundles.RefusedDocumentStopsCreate | wallet/Pass.py:115-117 | When the document is refused, `create` raises that error. The pass is unchanged and the signer is never consulted. |
| Bundles.CreatePipeline | wallet/Pass.py:103-128 | Once the document is accepted, the pass keeps the new manifest, and which signer runs makes no difference to it. `create` succeeds exactly when the signer exits with 0, and a failure carries the signer's standard error. On success the entry names are `signature`, `manifest.json`, `pass.json`, then the asset names. `manifest.json` holds the rendered manifest the pass records, and `signature` holds what the signer printed for exactly those bytes. `pass.json` holds the rendered document, and the assets follow unchanged. |
| Bundles.ArchiveMatchesManifest | wallet/Pass.py:197-208 | Every asset entry of the archive is listed in the pass's manifest with the digest of the bytes written. |
| Bundles.ArchiveDocumentDigest | wallet/Pass.py:202-204 | The third entry is `pass.json`, and its digest is in the manifest, unless an asset of that name overrides it. |
| Bundles.FreshPassCreateRefused | wallet/Pass.py:103-117 | `create` on a pass fresh from the constructor fails with the missing-`description` exception and leaves the pass unchanged. |
| Bundles.CreateRefusals | wallet/Pass.py:115-116 | The current `create` fails with exactly the document's error. Otherwise it records the manifest of the rendered document. |
| LegacyChecks.SubfieldOfField | wallet/models.py:17-23 | Checking a field's dictionary is the field's date check. Only a date field with a truthy style is checked, and its value must be a string that `strptime` accepts. |
| LegacyChecks.CheckSubfieldsOfFields | wallet/models.py:14-23 | `check_subfields` over a serialised group reports the first failing field's error. |
| LegacyChecks.FirstFieldErrorSpec | wallet/models.py:17-23 | The group passes exactly when every field passes. Otherwise it reports the error of a field that all earlier fields pass. |
| LegacyChecks.DateStyleNoneIsChecked | wallet/models.py:18 | A date field styled `PKDateStyleNone` is still checked, because the constant is a non-empty string. |
| LegacyChecks.UnstyledNotChecked | wallet/models.py:18 | A field without a truthy date or time style always passes. |
| LegacyChecks.WebServiceCheck | wallet/models.py:27-29 | `webServiceURL` passes exactly when it is a string starting with `https://`. Any other string raises the insecure-URL exception. |
| LegacyChecks.HeaderCheck | wallet/models.py:31-34 | More than three header fields are refused before any date check. At most three are date-checked in order. |
| LegacyChecks.BodyGroupCheck | wallet/models.py:36-43 | The primary, secondary and auxiliary groups are date-checked with no size limit. |
| LegacyChecks.BackFieldsUnchecked | wallet/models.py:25-43 | The back group is never checked. |
| LegacyChecks.OtherNamesUnchecked | wallet/models.py:25-43 | Every other name passes whatever its data. |
| LegacyProps.LegacyNewField | wallet/models.py:102-113 | The legacy text field behaves as the current one but never has an `attributedValue`. |
| LegacyProps.LegacyFieldIsCurrentWithoutAttributedValue | wallet/models.py:86-117 | The legacy text field is the current one built without the `attributed_value` keyword. |
| LegacyProps.LegacyNewDateField | wallet/models.py:138-149 | The text field's errors come first. On success the field is the text field with a date kind. |
| LegacyProps.LegacyNewNumberField | wallet/models.py:172-179 | The text field's errors come first. On success the field has a number kind and a float value. |
| LegacyProps.LegacyNewCurrencyField | wallet/models.py:202-204 | The text field's errors come first. On success the field has a currency kind and a float value. |
| LegacyProps.LegacyVariantsAreCurrent | wallet/models.py:120-208 | The legacy date, number and currency fields are the current ones built without `attributed_value`. |
| LegacyProps.LegacyAddField | wallet/models.py:310-353 | Each legacy `add_*_field` appends a legacy text field to its own group only, or raises that field's error. |
| LegacyProps.LegacyNewLocation | wallet/models.py:260-266 | The coordinates are converted in the order latitude, longitude, altitude. The first one that is missing raises `KeyError`, and the first that is an int too large for a double raises `OverflowError`. A coordinate that `float()` refuses with `ValueError` or `TypeError` becomes 0.0. `distance` is always set, to `None` when not given. |
| LegacyProps.LegacyLocationAgrees | wallet/models.py:246-266 | When the legacy constructor succeeds, so does the current one, and the legacy location is the current one with `distance` always set. |
| LegacyProps.LegacyAltitudeRequired | wallet/models.py:252-264 | Latitude and longitude without an altitude raise `KeyError`, although altitude is documented as optional. The current constructor gives altitude 0.0 for the same arguments. |
| LegacyPasses.GroupErrorOfFields | wallet/models.py:360-364 | The check of one group: never for back fields; more than three header fields raise; otherwise the first field's date error. |
| LegacyPasses.LegacyGroupOrder | wallet/models.py:360-365 | The first group error is sought in the order header, primary, secondary, auxiliary. The back group never contributes one. |
| LegacyPasses.LegacyGroupsSpec | wallet/models.py:359-366 | The check-then-update loop either raises the first group error, or adds every group entry in order. |
| LegacyPasses.LegacyInfoVerdict | wallet/models.py:355-381 | The legacy groups' dictionary succeeds exactly when the four checked groups pass, and raises the first error otherwise. On success it equals the current version's dictionary, including `transitType` for a boarding pass. |
| LegacyPasses.LegacyEmitSpec | wallet/models.py:611-616 | The legacy simple-field loop raises the first `field_checks` error among the truthy attributes. Otherwise it emits exactly what the current loop emits. |
| LegacyPasses.OnlyWebServiceChecked | wallet/models.py:611-616 | Over the listed names, only a truthy `webServiceURL` can make the loop raise. |
| LegacyPasses.LegacyJsonDictVerdict | wallet/models.py:581-621 | The legacy `json_dict` first raises the groups' error. A truthy non-string `webServiceURL` then raises `AttributeError` (`WrongType`), and a string without `https://` raises the insecure-URL exception. It succeeds exactly when none of these happens. There is no location limit and no required-key check. |
| LegacyPasses.LegacyJsonDictKeys | wallet/models.py:609-619 | The legacy document's keys, with no duplicates, are: the style key, the truthy listed attributes in list order, then `barcode` last when set. |
| LegacyPasses.LegacyJsonDictValues | wallet/models.py:609-619 | The style key holds the groups, a truthy listed attribute holds its value and `barcode` holds the barcode's dictionary. Every other name is absent. |
| LegacyPasses.LegacyDroppedAttributes | wallet/models.py:592-599 | Because of the fused names, `suppressStripShine`, `relevantDate`, `locations` and `ibeacons` never appear in the legacy document. |
| LegacyPasses.LegacyBarcodesInDocument | wallet/models.py:607 | `barcodes` appears exactly when the list is non-empty, holding the barcodes' dictionaries. |
| LegacyPasses.FreshLegacyPassAccepted | wallet/models.py:445-466 | A fresh legacy pass has an empty description and no web service, yet its `json_dict` succeeds exactly when its groups pass. |
| LegacyPasses.LegacyCreateRefusals | wallet/models.py:501-512 | The legacy `create` fails with exactly the legacy document's error, leaving the pass unchanged. Otherwise it records the manifest of that document. |

## Left out

- **Signing.** The openssl subprocess, its pipes and its blocking are a
  parameter (`signer`), so any exit code and output can be fed in.
- **Temporary files.** The `filemode=False` branch of
  `_create_signature` writes the certificates to temporary files. It is not
  modelled.
- **`password`.** It is modelled as the text `f"pass:{password}"` makes of
  it. Its default `False` becomes `"False"`.
- **SHA-1, JSON and dates.** SHA-1, `json.dumps` with `pass_handler` and
  the UTF-8 encoding, `strptime` and `float()` on strings are parameters.
  The model does not fix the hash function, the JSON byte encoding or the
  string-to-number parsing.
- **Encoding details.** `pass_handler`'s rendering of `Decimal` values and
  the encoding of NaN and infinities are left out. Floats are reals: a
  converted int keeps its exact value instead of being rounded to a
  double. Only the overflow of `float()` on a huge int is modelled.
- **The archive.** `zipfile` and the output file or `BytesIO` are left out.
  The archive is its ordered list of entries.
- **Reading assets.** `add_file` takes bytes that have already been read.
  `open()` and its `FileNotFoundError` belong to the caller.
- **Open Python objects.** Callers may assign any JSON value to a pass
  attribute. They may not add new attributes or delete existing ones, and
  the groups hold fields only.
  - `barcode`, `barcodes`, `locations` and `ibeacons` hold the library's
    own value objects, and `barcode` is either unset or a `Barcode`. The
    legacy `json_dict` would raise `AttributeError` on any other truthy
    `barcode`.
  - `transitType` is one of the five `PKTransitType…` constants. The source
    accepts any value.
- **Missing `jsonname`.** A bare `PassInformation` has no `jsonname`, and
  serialising it raises `AttributeError`. It is not modelled: every style
  has a name.
- **Non-list group data.** The group branches of `field_checks` receive
  only lists. A non-list is mapped to a type error without further claim.
- **Legacy defaults.** In the legacy constructor `locations` and `ibeacons`
  default to `None`, while the model uses empty lists. The legacy document
  never reads either, because of the fused names.
- **Concrete documents.** No concrete pass is worked out here. The order
  of the store-card document in wallet/test/test_pass.py:61-81 follows from
  `PassDocument.DocumentKeys`.
- LegacyProps.LegacyNewDateField: its own contract is weaker than the
  source's constructor. It states only the error order and the date kind.
  The full behaviour is stated by `LegacyProps.LegacyVariantsAreCurrent`
  together with `Fields.NewDateField`.
- LegacyProps.LegacyNewNumberField: its own contract states only the error
  order, the number kind and the float value. The rest comes through
  `LegacyProps.LegacyVariantsAreCurrent` and `Fields.NewNumberField`.
- LegacyProps.LegacyNewCurrencyField: its own contract states only the
  error order, the currency kind and the float value. The rest comes
  through `LegacyProps.LegacyVariantsAreCurrent` and
  `Fields.NewCurrencyField`.
- **Files not modelled.** wallet/Schemas/FieldProps.py, setup.py and
  wallet/PassProps/TransitType.py are not part of this model. The
  `PKTransitType…`, `PKTextAlignment…`, `PKDateStyle…`, `PKNumberStyle…`
  and `PKBarcodeFormat…` constants come from wallet/models.py:45-84. The
  current package's constant modules and its other style classes are not
  part of this model.

## Findings

| source | as written | input that shows it | evidently intended | confidence | as-written member | corrected member |
|---|---|---|---|---|---|---|
| wallet/models.py:260-264 | `float(kwargs[name])` inside `except (ValueError, TypeError)`, so a missing coordinate raises `KeyError` | `Location(latitude=1.0, longitude=2.0)` | altitude is optional (docstring line 252) and defaults to 0.0, as the current Location catches `KeyError` too | high, not executed | LegacyProps.LegacyAltitudeRequired | Locations.NewLocation |
