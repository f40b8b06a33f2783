/** Post-processing of the text-recognition service's reply in
    `extractPlateText`: the fetch itself is not modelled, only the branch on
    the reply it produced. */
module OcrText {
  import opened PlateText
  import opened PlateFormat

  /** What the request to `/process_plate` produced: a reply carrying
      `plate_texts`, a reply without it (its `error` field is only logged), or
      a request that threw (network failure, unreadable JSON). */
  datatype OcrResponse =
    | PlateTexts(texts: seq<string>)
    | OcrError(message: string)
    | RequestFailed

  /** The text returned on both failure paths. */
  const ErrorText: string := "Error extracting text"

  /** The separator of `cleanedTexts.join(", ")`. */
  const Separator: string := ", "

  /** `Array.prototype.join`: the parts with `sep` between consecutive ones. */
  function Join(parts: seq<string>, sep: string): string
    decreases |parts|
  {
    if |parts| == 0 then []
    else if |parts| == 1 then parts[0]
    else parts[0] + sep + Join(parts[1..], sep)
  }

  /** The parts written one after another, without separators. */
  function Concat(parts: seq<string>): string
    decreases |parts|
  {
    if |parts| == 0 then [] else parts[0] + Concat(parts[1..])
  }

  /** `plate_texts.map(cleanPlateText)`. */
  function CleanEach(texts: seq<string>): seq<string> {
    seq(|texts|, i requires 0 <= i < |texts| => Clean(texts[i]))
  }

  lemma SeparatorIsNoise()
    ensures Clean(Separator) == []
  {
    CleanOfNoise(Separator);
  }

  /** Re-cleaning the joined cleaned fragments gives the cleaned concatenation
      of the raw fragments: the separators vanish. */
  lemma {:induction false} CleanJoinedFragments(texts: seq<string>)
    ensures Clean(Join(CleanEach(texts), Separator)) == Clean(Concat(texts))
    decreases |texts|
  {
    var parts := CleanEach(texts);
    if |texts| == 0 {
    } else if |texts| == 1 {
      assert texts[0] + [] == texts[0];
      CleanIdempotent(texts[0]);
    } else {
      assert parts[1..] == CleanEach(texts[1..]);
      CleanJoinedFragments(texts[1..]);
      SeparatorIsNoise();
      CleanAppend(parts[0] + Separator, Join(parts[1..], Separator));
      CleanAppend(parts[0], Separator);
      CleanIdempotent(texts[0]);
      CleanAppend(texts[0], Concat(texts[1..]));
    }
  }

  /** The success and failure branches of `extractPlateText`. */
  function ExtractPlateText(response: OcrResponse): (r: string)
    ensures response.PlateTexts? ==> Clean(r) == Clean(Concat(response.texts))
    ensures response.PlateTexts? && |response.texts| == 1 ==> r == Clean(response.texts[0])
    ensures response.PlateTexts? && response.texts == [] ==> r == []
    ensures !response.PlateTexts? ==> r == ErrorText
  {
    match response
    case PlateTexts(texts) =>
      CleanJoinedFragments(texts);
      Join(CleanEach(texts), Separator)
    case OcrError(_) => ErrorText
    case RequestFailed => ErrorText
  }

  /** Validating the joined reply is validating the concatenated raw fragments. */
  lemma ValidateReply(texts: seq<string>, vehicleType: string)
    ensures Validate(ExtractPlateText(PlateTexts(texts)), vehicleType)
         == Validate(Concat(texts), vehicleType)
  {
    ValidateIgnoresNoise(ExtractPlateText(PlateTexts(texts)), Concat(texts), vehicleType);
  }

  /** The failure text cleans to `"E"`: only its capital letter survives. */
  lemma ErrorTextCleansToE()
    ensures Clean(ErrorText) == "E"
  {
    var rest := "rror extracting text";
    assert forall i :: 0 <= i < |rest| ==> !IsPlateChar(rest[i]);
    assert ErrorText == "E" + rest + "";
    CleanDropsNoise("E", rest, "");
    assert "E" + "" == "E";
  }

  /** A failed reply cleans to `"E"`, which no grammar accepts under any selector. */
  lemma FailedReplyIsUnknown(response: OcrResponse, vehicleType: string)
    requires !response.PlateTexts?
    ensures Clean(ExtractPlateText(response)) == "E"
    ensures Validate(ExtractPlateText(response), vehicleType) == InvalidPlate
  {
    ErrorTextCleansToE();
    assert |Clean(ExtractPlateText(response))| == 1;
  }
}
