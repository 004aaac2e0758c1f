/** Barcodes (wallet/PassProps/Barcode.py). */
module Barcodes {
  import opened Wrappers
  import opened Errors
  import opened OrderedMaps
  import opened Values

  const FormatPdf417 := "PKBarcodeFormatPDF417"
  const FormatQr := "PKBarcodeFormatQR"
  const FormatAztec := "PKBarcodeFormatAztec"

  const FormatTable: OMap<string, string> :=
    [("pdf417", FormatPdf417), ("qr", FormatQr), ("aztec", FormatAztec)]

  datatype Barcode = Barcode(format: Json, message: Json, messageEncoding: Json, altText: Json)

  /** `Barcode(**kw)`: `format` and `message` are required; an unrecognised
      format becomes the bare string "qr", not the QR constant. */
  function NewBarcode(kw: Kwargs): (r: Result<Barcode, Error>)
    ensures "format" !in kw ==> r == Failure(MissingArgument("format"))
    ensures "format" in kw && !Hashable(kw["format"]) ==> r == Failure(Unhashable)
    ensures ("format" in kw && Hashable(kw["format"]) && "message" !in kw) ==>
      r == Failure(MissingArgument("message"))
    ensures r.Success? <==> "format" in kw && Hashable(kw["format"]) && "message" in kw
    ensures r.Success? ==>
      && (kw["format"] == JString("pdf417") ==> r.value.format == JString(FormatPdf417))
      && (kw["format"] == JString("qr") ==> r.value.format == JString(FormatQr))
      && (kw["format"] == JString("aztec") ==> r.value.format == JString(FormatAztec))
      && (kw["format"] !in KeysAsJson(FormatTable) ==> r.value.format == JString("qr"))
      && r.value.message == kw["message"]
      && r.value.messageEncoding == KwGet(kw, "encoding", JString("iso-8859-1"))
      && r.value.altText == KwGet(kw, "alt_text", JString(""))
  {
    if "format" !in kw then Failure(MissingArgument("format"))
    else
      FormatLookup(kw["format"]);
      var format :- Lookup(FormatTable, kw["format"], JString("qr"));
      if "message" !in kw then Failure(MissingArgument("message"))
      else
        Success(Barcode(format, kw["message"], KwGet(kw, "encoding", JString("iso-8859-1")),
                        KwGet(kw, "alt_text", JString(""))))
  }

  lemma FormatLookup(arg: Json)
    ensures Hashable(arg) ==> Lookup(FormatTable, arg, JString("qr")).Success?
    ensures var r := Lookup(FormatTable, arg, JString("qr"));
      && (arg == JString("pdf417") ==> r == Success(JString(FormatPdf417)))
      && (arg == JString("qr") ==> r == Success(JString(FormatQr)))
      && (arg == JString("aztec") ==> r == Success(JString(FormatAztec)))
      && (Hashable(arg) && arg !in KeysAsJson(FormatTable) ==> r == Success(JString("qr")))
  {
    var t := FormatTable;
    assert Keys(t) == ["pdf417", "qr", "aztec"];
    forall i | 0 <= i < |t|
      ensures Get(t, t[i].0) == Some(t[i].1)
    {
      GetAt(t, i);
    }
  }

  /** `barcode.json_dict()` */
  function BarcodeJson(b: Barcode): Json {
    JObject([("format", b.format), ("message", b.message),
             ("messageEncoding", b.messageEncoding), ("altText", b.altText)])
  }

  /** The emitted barcode has exactly the four keys, in constructor order,
      holding the normalised arguments. */
  lemma NewBarcodeLayout(kw: Kwargs)
    requires NewBarcode(kw).Success?
    ensures var j := BarcodeJson(NewBarcode(kw).value);
      && ObjectKeys(j) == ["format", "message", "messageEncoding", "altText"]
      && (kw["format"] == JString("pdf417") ==> Member(j, "format") == Some(JString(FormatPdf417)))
      && (kw["format"] == JString("qr") ==> Member(j, "format") == Some(JString(FormatQr)))
      && (kw["format"] == JString("aztec") ==> Member(j, "format") == Some(JString(FormatAztec)))
      && (kw["format"] !in KeysAsJson(FormatTable) ==> Member(j, "format") == Some(JString("qr")))
      && Member(j, "message") == Some(kw["message"])
      && Member(j, "messageEncoding") == Some(KwGet(kw, "encoding", JString("iso-8859-1")))
      && Member(j, "altText") == Some(KwGet(kw, "alt_text", JString("")))
  {
    var m := BarcodeJson(NewBarcode(kw).value).members;
    assert Keys(m) == ["format", "message", "messageEncoding", "altText"];
    GetAt(m, 0);
    GetAt(m, 1);
    GetAt(m, 2);
    GetAt(m, 3);
  }

  /** A QR barcode for "hello" with every default. */
  lemma QrHelloExample()
    ensures var r := NewBarcode(map["format" := JString("qr"), "message" := JString("hello")]);
      && r.Success?
      && BarcodeJson(r.value) == JObject([
           ("format", JString("PKBarcodeFormatQR")), ("message", JString("hello")),
           ("messageEncoding", JString("iso-8859-1")), ("altText", JString(""))])
  {
  }
}
