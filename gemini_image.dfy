/**
 * The badge-image service: building the generation prompt, reading the MIME
 * type and the base64 payload out of a data URL, and folding the streamed
 * response into one image.
 *
 * The two regular expressions are modelled as the leftmost-match searches
 * JavaScript performs.  The API key, the bytes a fetched blob URL reads back
 * as, and the stream of response chunks are parameters.
 */
module GeminiImage {
  import opened Common

  // ---------------------------------------------------------------------
  // Strings
  // ---------------------------------------------------------------------

  predicate StartsWith(s: string, prefix: string)
  {
    |prefix| <= |s| && s[..|prefix|] == prefix
  }

  /** `p` occurs in `s` starting at index i. */
  predicate OccursAt(s: string, p: string, i: nat)
  {
    i + |p| <= |s| && s[i..i + |p|] == p
  }

  /** `p` occurs nowhere in `s`. */
  predicate Lacks(s: string, p: string)
  {
    forall i: nat :: i <= |s| ==> !OccursAt(s, p, i)
  }

  /** `xs.join(sep)` */
  function Join(xs: seq<string>, sep: string): string
    decreases |xs|
  {
    if |xs| == 0 then ""
    else if |xs| == 1 then xs[0]
    else xs[0] + sep + Join(xs[1..], sep)
  }

  /** Joining one more element adds the separator and the element at the end. */
  lemma {:induction false} JoinSnoc(xs: seq<string>, x: string, sep: string)
    requires |xs| >= 1
    ensures Join(xs + [x], sep) == Join(xs, sep) + sep + x
    decreases |xs|
  {
    if |xs| == 1 {
      assert xs + [x] == [xs[0], x];
      assert [xs[0], x][1..] == [x];
    } else {
      assert (xs + [x])[0] == xs[0];
      assert (xs + [x])[1..] == xs[1..] + [x];
      JoinSnoc(xs[1..], x, sep);
    }
  }

  /** The joined text is as long as the elements plus one separator between each pair. */
  lemma {:induction false} JoinLength(xs: seq<string>, sep: string)
    requires |xs| >= 1
    ensures |Join(xs, sep)| == TotalLength(xs) + (|xs| - 1) * |sep|
    decreases |xs|
  {
    if |xs| > 1 {
      JoinLength(xs[1..], sep);
    }
  }

  function TotalLength(xs: seq<string>): nat
    decreases |xs|
  {
    if xs == [] then 0 else |xs[0]| + TotalLength(xs[1..])
  }

  // ---------------------------------------------------------------------
  // createBadgePrompt
  // ---------------------------------------------------------------------

  const TransformOpening: string := "Transform this photo"
  const TransformHead: string := TransformOpening + " into a 3D figurine-style travel souvenir magnet design.\n\nLocation/Theme: "
  const TransformMid: string := "\nKeywords: "
  const TransformTail: string :=
    "\n\nStyle requirements:\n"
    + "- Remove white borders and background completely (transparent or clean background)\n"
    + "- Create a cute, collectible figurine aesthetic (like miniature travel souvenirs)\n"
    + "- Add depth and 3D dimensionality to make it look like a physical object\n"
    + "- Maintain the essence of the scene but stylize it as a charming collectible item\n"
    + "- Vibrant, eye-catching colors\n"
    + "- NOT just a flat photo - transform it into an illustrated, figurine-like object\n"
    + "- Think: refrigerator magnet souvenir that tourists would buy\n"
    + "- IMPORTANT: DO NOT include any Korean text, letters, or characters in the image - use English or no text at all\n"
    + "- If there is Korean text in the source image, replace it with English or remove it completely\n"
    + "\nThe final result should look like a premium travel souvenir magnet with character and charm."

  const CreateOpening: string := "Create a beautiful"
  const CreateHead: string := CreateOpening + ", artistic badge image for a location in Seoul, South Korea.\nDescription: "
  const CreateMid: string := "\nTheme/Tags: "
  const CreateTail: string :=
    "\n\nThe image should be aesthetic, visually appealing, and suitable as a collectible digital badge.\n"
    + "Style: Modern, clean, with vibrant colors suitable for mobile app display.\n"
    + "Format: Square or rounded square composition.\n"
    + "IMPORTANT: DO NOT include any Korean text, letters, or characters in the image - use English or no text at all."

  /** The keywords line: the tags joined with ", ", or nothing when there are none. */
  function TagText(tags: seq<string>): string
  {
    if |tags| > 0 then Join(tags, ", ") else ""
  }

  /** The generation prompt; without a source photo it is the plain badge template. */
  function CreateBadgePrompt(description: string, tags: seq<string>, hasSourceImage: bool := false): string
  {
    var tagText := TagText(tags);
    if hasSourceImage then TransformHead + description + TransformMid + tagText + TransformTail
    else CreateHead + description + CreateMid + tagText + CreateTail
  }

  /**
   * The empty-list case of the keywords line agrees with `join`, so the
   * keywords are always the plain join; one tag is itself and each further
   * tag adds ", " and the tag.
   */
  lemma TagTextFacts(tags: seq<string>, t: string)
    ensures TagText(tags) == Join(tags, ", ")
    ensures TagText([t]) == t
    ensures |tags| >= 1 ==> TagText(tags + [t]) == TagText(tags) + ", " + t
  {
    if |tags| >= 1 {
      JoinSnoc(tags, t, ", ");
    }
  }

  /** Where the parts of `head + a + mid + b + tail` sit. */
  lemma FiveParts(head: string, a: string, mid: string, b: string, tail: string)
    ensures var s := head + a + mid + b + tail;
            var k := |head| + |a| + |mid|;
            && s[..|head|] == head
            && s[|head|..|head| + |a|] == a
            && k + |b| <= |s| && s[k..k + |b|] == b
  {
  }

  /** A text starting with `u + v` starts with `u`. */
  lemma StartsWithPrefix(s: string, u: string, v: string)
    requires StartsWith(s, u + v)
    ensures StartsWith(s, u) && (|u| > 0 ==> s[0] == u[0])
  {
    assert s[..|u|] == s[..|u + v|][..|u|];
    assert (u + v)[..|u|] == u;
  }

  /**
   * A source photo selects the "Transform this photo" template and its
   * absence the "Create a beautiful" one.
   */
  lemma PromptTemplate(description: string, tags: seq<string>, hasSourceImage: bool)
    ensures StartsWith(CreateBadgePrompt(description, tags, hasSourceImage), TransformOpening) <==> hasSourceImage
    ensures StartsWith(CreateBadgePrompt(description, tags, hasSourceImage), CreateOpening) <==> !hasSourceImage
  {
    var p := CreateBadgePrompt(description, tags, hasSourceImage);
    var t := TagText(tags);
    assert TransformOpening[0] == 'T' && CreateOpening[0] == 'C';
    if hasSourceImage {
      FiveParts(TransformHead, description, TransformMid, t, TransformTail);
      StartsWithPrefix(p, TransformOpening, TransformHead[|TransformOpening|..]);
    } else {
      FiveParts(CreateHead, description, CreateMid, t, CreateTail);
      StartsWithPrefix(p, CreateOpening, CreateHead[|CreateOpening|..]);
    }
  }

  /**
   * Either way the description and the keywords appear in full, at fixed
   * places after the template's fixed text.
   */
  lemma PromptContents(description: string, tags: seq<string>, hasSourceImage: bool)
    ensures var p := CreateBadgePrompt(description, tags, hasSourceImage);
            var head := if hasSourceImage then TransformHead else CreateHead;
            var mid := if hasSourceImage then TransformMid else CreateMid;
            var k := |head| + |description| + |mid|;
            && |head| + |description| <= |p| && p[|head|..|head| + |description|] == description
            && k + |TagText(tags)| <= |p| && p[k..k + |TagText(tags)|] == TagText(tags)
  {
    var t := TagText(tags);
    if hasSourceImage {
      FiveParts(TransformHead, description, TransformMid, t, TransformTail);
    } else {
      FiveParts(CreateHead, description, CreateMid, t, CreateTail);
    }
  }

  // ---------------------------------------------------------------------
  // Regular-expression searches
  // ---------------------------------------------------------------------

  /** The first index at or after `from` holding `c`. */
  function FirstFrom(s: string, c: char, from: nat): (k: Option<nat>)
    requires from <= |s|
    ensures k.Some? ==> from <= k.value < |s| && s[k.value] == c
    ensures k.Some? ==> forall j :: from <= j < k.value ==> s[j] != c
    ensures k.None? ==> forall j :: from <= j < |s| ==> s[j] != c
    decreases |s| - from
  {
    if from == |s| then None
    else if s[from] == c then Some(from)
    else FirstFrom(s, c, from + 1)
  }

  /** `/data:([^;]+);/` tried at position i: the capture runs to the first ';' and may not be empty. */
  function MimeMatchAt(s: string, i: nat): Option<string>
    requires i <= |s|
  {
    if !StartsWith(s[i..], "data:") then None
    else
      var k := FirstFrom(s, ';', i + 5);
      if k.Some? && k.value > i + 5 then Some(s[i + 5..k.value]) else None
  }

  /** The leftmost match at or after position i. */
  function MimeSearch(s: string, i: nat): Option<string>
    requires i <= |s|
    decreases |s| - i
  {
    var m := MimeMatchAt(s, i);
    if m.Some? then m else if i == |s| then None else MimeSearch(s, i + 1)
  }

  /** `getMimeTypeFromDataUrl` */
  function MimeType(url: string): Option<string>
  {
    if StartsWith(url, "data:") then MimeSearch(url, 0) else None
  }

  /** `m` is captured at j: "data:" at j, then `m`, non-empty and free of ';', then a ';'. */
  predicate MimeCapturedAt(s: string, j: nat, m: string)
  {
    && j + 5 + |m| < |s|
    && s[j..j + 5] == "data:"
    && s[j + 5..j + 5 + |m|] == m
    && s[j + 5 + |m|] == ';'
    && m != "" && ';' !in m
  }

  lemma MimeMatchAtSound(s: string, i: nat)
    requires i <= |s|
    ensures MimeMatchAt(s, i).Some? ==> MimeCapturedAt(s, i, MimeMatchAt(s, i).value)
  {
    if MimeMatchAt(s, i).Some? {
      var k := FirstFrom(s, ';', i + 5).value;
      var m := s[i + 5..k];
      assert s[i..][..5] == s[i..i + 5];
      assert forall c :: 0 <= c < |m| ==> m[c] == s[i + 5 + c];
    }
  }

  lemma {:induction false} MimeSearchSound(s: string, i: nat)
    requires i <= |s|
    ensures MimeSearch(s, i).Some? ==> exists j :: i <= j && MimeCapturedAt(s, j, MimeSearch(s, i).value)
    ensures (forall j :: i <= j < |s| ==> s[j] != ';') ==> MimeSearch(s, i).None?
    decreases |s| - i
  {
    MimeMatchAtSound(s, i);
    if MimeMatchAt(s, i).None? && i < |s| {
      MimeSearchSound(s, i + 1);
    }
  }

  /**
   * `getMimeTypeFromDataUrl`: nothing unless the URL starts with "data:"; a
   * URL with no ';' has none; a found type is non-empty, free of ';', and
   * sits between a "data:" and a ';' of the URL; and when the first ';'
   * after the leading "data:" leaves a non-empty type, that is the one found.
   */
  lemma MimeTypeFacts(url: string)
    ensures !StartsWith(url, "data:") ==> MimeType(url).None?
    ensures ';' !in url ==> MimeType(url).None?
    ensures MimeType(url).Some? ==> exists j :: MimeCapturedAt(url, j, MimeType(url).value)
    ensures StartsWith(url, "data:") ==>
              var k := FirstFrom(url, ';', 5);
              k.Some? && k.value > 5 ==> MimeType(url) == Some(url[5..k.value])
  {
    MimeSearchSound(url, 0);
    if StartsWith(url, "data:") {
      assert url[0..] == url;
    }
  }

  /** The characters `.` does not match in a JavaScript regular expression. */
  predicate IsLineTerminator(c: char)
  {
    c == '\n' || c == '\r' || c == '\U{2028}' || c == '\U{2029}'
  }

  predicate NoLineTerminator(s: string)
  {
    forall i :: 0 <= i < |s| ==> !IsLineTerminator(s[i])
  }

  /** The end of the run of non-terminators starting at `from`. */
  function RunEnd(s: string, from: nat): (e: nat)
    requires from <= |s|
    ensures from <= e <= |s|
    ensures forall j :: from <= j < e ==> !IsLineTerminator(s[j])
    ensures e < |s| ==> IsLineTerminator(s[e])
    decreases |s| - from
  {
    if from == |s| || IsLineTerminator(s[from]) then from else RunEnd(s, from + 1)
  }

  /** `/base64,(.+)/` tried at position i: the capture is the longest non-empty run of non-terminators. */
  function Base64MatchAt(s: string, i: nat): Option<string>
    requires i <= |s|
  {
    if StartsWith(s[i..], "base64,") && i + 7 < |s| && !IsLineTerminator(s[i + 7])
    then Some(s[i + 7..RunEnd(s, i + 7)])
    else None
  }

  function Base64Search(s: string, i: nat): Option<string>
    requires i <= |s|
    decreases |s| - i
  {
    var m := Base64MatchAt(s, i);
    if m.Some? then m else if i == |s| then None else Base64Search(s, i + 1)
  }

  /**
   * `urlToBase64`: a data URL yields its payload directly; anything else
   * (or a data URL without a payload) is fetched, and `readBack` is the data
   * URL the fetched blob reads back as, None when the fetch or the read fails.
   */
  function UrlToBase64(url: string, readBack: Option<string>): Result<string>
  {
    if StartsWith(url, "data:") && Base64Search(url, 0).Some? then Success(Base64Search(url, 0).value)
    else if readBack.None? then Failure("image could not be fetched or read")
    else if Base64Search(readBack.value, 0).Some? then Success(Base64Search(readBack.value, 0).value)
    else Failure("Failed to convert image to base64")
  }

  /** The data URL the service builds from a MIME type and a payload. */
  function DataUrl(mime: string, data: string): string
  {
    "data:" + mime + ";base64," + data
  }

  /** A search that finds nothing at positions i..j-1 goes on from j. */
  lemma {:induction false} Base64SearchSkips(s: string, i: nat, j: nat)
    requires i <= j <= |s|
    requires forall t :: i <= t < j ==> Base64MatchAt(s, t).None?
    ensures Base64Search(s, i) == Base64Search(s, j)
    decreases j - i
  {
    if i < j {
      Base64SearchSkips(s, i + 1, j);
    }
  }

  /** In a built data URL no "base64," starts before the one the service put there. */
  lemma NoEarlyBase64(mime: string, data: string, t: nat)
    requires |mime| >= 1 && ';' !in mime && Lacks(mime, "base64,")
    requires t <= 5 + |mime|
    ensures t <= |DataUrl(mime, data)| && !StartsWith(DataUrl(mime, data)[t..], "base64,")
  {
    var url := DataUrl(mime, data);
    var p := 5 + |mime|;
    assert url[p] == ';';
    if t < 5 {
      assert url[t] == "data:"[t];
      assert url[t] != 'b';
    } else if t + 7 <= p {
      assert url[t..t + 7] == mime[t - 5..t - 5 + 7];
      assert !OccursAt(mime, "base64,", t - 5);
    } else {
      assert "base64,"[p - t] != ';';
    }
  }

  /**
   * Round trip: for a MIME type that is non-empty, has no ';' and no
   * "base64,", and a payload that is non-empty with no line break, the data
   * URL the service builds gives back that MIME type and that payload.
   */
  lemma DataUrlRoundTrip(mime: string, data: string)
    requires |mime| >= 1 && ';' !in mime && Lacks(mime, "base64,")
    requires |data| >= 1 && NoLineTerminator(data)
    ensures MimeType(DataUrl(mime, data)) == Some(mime)
    ensures UrlToBase64(DataUrl(mime, data), None) == Success(data)
  {
    var url := DataUrl(mime, data);
    var p := 5 + |mime|;
    assert url[..5] == "data:";
    assert url[0..][..5] == "data:";
    assert url[p] == ';';
    assert forall j :: 5 <= j < p ==> url[j] == mime[j - 5];
    var k := FirstFrom(url, ';', 5);
    assert k == Some(p);
    assert url[5..p] == mime;
    assert MimeMatchAt(url, 0) == Some(mime);

    forall t | 0 <= t < p + 1
      ensures Base64MatchAt(url, t).None?
    {
      NoEarlyBase64(mime, data, t);
    }
    Base64SearchSkips(url, 0, p + 1);
    assert url[p + 1..][..7] == "base64,";
    assert StartsWith(url[p + 1..], "base64,");
    assert forall j :: p + 8 <= j < |url| ==> url[j] == data[j - p - 8];
    assert url[p + 8] == data[0];
    assert !IsLineTerminator(url[p + 8]);
    assert RunEnd(url, p + 8) == |url|;
    assert url[p + 8..] == data;
    assert url[p + 8..|url|] == data;
    assert Base64MatchAt(url, p + 1) == Some(data);
  }

  // ---------------------------------------------------------------------
  // The response stream
  // ---------------------------------------------------------------------

  /** Fields of the SDK's response objects; any of them may be missing. */
  datatype InlineData = InlineData(mimeType: Option<string>, data: Option<string>)
  datatype Part = Part(text: Option<string>, inlineData: Option<InlineData>)
  datatype Content = Content(parts: Option<seq<Part>>)
  datatype Candidate = Candidate(content: Option<Content>)
  datatype Chunk = Chunk(candidates: Option<seq<Candidate>>, text: Option<string>)

  /** The image data and MIME type the loop holds; None is null. */
  datatype Found = Found(data: Option<string>, mimeType: Option<string>)

  const TypeErrorMessage: string := "Cannot read properties of undefined (reading 'content')"
  const NoImageMessage: string := "Failed to generate image from Gemini API"
  const NoApiKeyMessage: string := "VITE_GEMINI_API_KEY is not configured"

  /** A chunk whose candidate list is empty: reading `candidates[0].content` throws. */
  predicate Throws(c: Chunk)
  {
    c.candidates == Some([])
  }

  predicate AnyThrows(chunks: seq<Chunk>)
  {
    exists i :: 0 <= i < |chunks| && Throws(chunks[i])
  }

  /** The inline data of the chunk's first part, when the chunk is not skipped and carries one. */
  function InlineOf(c: Chunk): Option<InlineData>
  {
    if c.candidates.None? || c.candidates.value == [] then None
    else
      var content := c.candidates.value[0].content;
      if content.None? || content.value.parts.None? || content.value.parts.value == [] then None
      else content.value.parts.value[0].inlineData
  }

  /** JavaScript truthiness of an optional string, as `value || null`: an empty string counts as absent. */
  function Truthy(s: Option<string>): Option<string>
  {
    if s.Some? && s.value != "" then s else None
  }

  /** Reference definition, read from the end: the last chunk carrying inline data decides. */
  function LastInline(chunks: seq<Chunk>): Found
    decreases |chunks|
  {
    if chunks == [] then Found(None, None)
    else
      var d := InlineOf(chunks[|chunks| - 1]);
      if d.Some? then Found(Truthy(d.value.data), Truthy(d.value.mimeType))
      else LastInline(chunks[..|chunks| - 1])
  }

  /** Chunks without inline data (text-only, skipped) after the deciding one change nothing. */
  lemma {:induction false} LastInlineIgnoresTail(chunks: seq<Chunk>, tail: seq<Chunk>)
    requires forall i :: 0 <= i < |tail| ==> InlineOf(tail[i]).None?
    ensures LastInline(chunks + tail) == LastInline(chunks)
    decreases |tail|
  {
    if tail == [] {
      assert chunks + tail == chunks;
    } else {
      var init := tail[..|tail| - 1];
      assert (chunks + tail)[..|chunks + tail| - 1] == chunks + init;
      assert (chunks + tail)[|chunks + tail| - 1] == tail[|tail| - 1];
      LastInlineIgnoresTail(chunks, init);
    }
  }

  /**
   * The loop over the streamed chunks.  Each chunk without candidates,
   * content or parts is skipped; a chunk with an empty candidate list
   * throws; a chunk whose first part carries inline data overwrites both
   * values (an empty string becomes null).
   */
  method CollectImage(chunks: seq<Chunk>) returns (r: Result<Found>)
    ensures AnyThrows(chunks) <==> r.Failure?
    ensures r.Failure? ==> r.error == TypeErrorMessage
    ensures r.Success? ==> r.value == LastInline(chunks)
  {
    var imageData: Option<string> := None;
    var imageMimeType: Option<string> := None;
    for i := 0 to |chunks|
      invariant forall j :: 0 <= j < i ==> !Throws(chunks[j])
      invariant Found(imageData, imageMimeType) == LastInline(chunks[..i])
    {
      var chunk := chunks[i];
      assert chunks[..i + 1][..i] == chunks[..i];
      if chunk.candidates.Some? {
        if chunk.candidates.value == [] {
          assert Throws(chunks[i]);
          return Failure(TypeErrorMessage);
        }
        var content := chunk.candidates.value[0].content;
        if content.Some? && content.value.parts.Some? {
          var parts := content.value.parts.value;
          if |parts| > 0 && parts[0].inlineData.Some? {
            var inlineData := parts[0].inlineData.value;
            imageData := Truthy(inlineData.data);
            imageMimeType := Truthy(inlineData.mimeType);
          }
        }
      }
    }
    assert chunks[..|chunks|] == chunks;
    return Success(Found(imageData, imageMimeType));
  }

  /** The result handed back to the caller. */
  datatype ImageResult = ImageResult(dataUrl: string, mimeType: string)

  /** The check after the loop: both values must be present. */
  function Finish(f: Found): Result<ImageResult>
  {
    if f.data.None? || f.mimeType.None? then Failure(NoImageMessage)
    else Success(ImageResult(DataUrl(f.mimeType.value, f.data.value), f.mimeType.value))
  }

  /**
   * A successful result carries a non-empty payload and MIME type; and when
   * the MIME type has no ';' or "base64," and the payload no line break, its
   * data URL reads back as that MIME type and that payload.
   */
  lemma FinishRoundTrip(f: Found)
    ensures Finish(f).Success? <==> f.data.Some? && f.mimeType.Some?
    ensures Finish(f).Success? && ';' !in f.mimeType.value && Lacks(f.mimeType.value, "base64,")
            && f.mimeType.value != "" && f.data.value != "" && NoLineTerminator(f.data.value) ==>
              MimeType(Finish(f).value.dataUrl) == Some(Finish(f).value.mimeType) &&
              UrlToBase64(Finish(f).value.dataUrl, None) == Success(f.data.value)
  {
    if f.data.Some? && f.mimeType.Some? && ';' !in f.mimeType.value && Lacks(f.mimeType.value, "base64,")
       && f.mimeType.value != "" && f.data.value != "" && NoLineTerminator(f.data.value) {
      DataUrlRoundTrip(f.mimeType.value, f.data.value);
    }
  }

  /** The values `LastInline` keeps are never empty strings. */
  lemma {:induction false} LastInlineTruthy(chunks: seq<Chunk>)
    ensures LastInline(chunks).data.Some? ==> LastInline(chunks).data.value != ""
    ensures LastInline(chunks).mimeType.Some? ==> LastInline(chunks).mimeType.value != ""
    decreases |chunks|
  {
    if chunks != [] && InlineOf(chunks[|chunks| - 1]).None? {
      LastInlineTruthy(chunks[..|chunks| - 1]);
    }
  }

  // ---------------------------------------------------------------------
  // generateBadgeImage
  // ---------------------------------------------------------------------

  /** One part of the request: the prompt text, or the source image inline. */
  datatype RequestPart = TextPart(text: string) | InlinePart(mimeType: string, data: string)


  /**
   * Generates a badge image.  Without an API key nothing is sent.  With a
   * source image the request carries it inline, typed by its data-URL MIME
   * type or image/png.  `request` is what was sent (None when the call
   * failed before sending); the result is the last inline image of the
   * stream.
   */
  method GenerateBadgeImage(apiKey: Option<string>, prompt: string, sourceImageUrl: Option<string>,
                            readBack: Option<string>, chunks: seq<Chunk>)
    returns (request: Option<seq<RequestPart>>, r: Result<ImageResult>)
    ensures !Truthy(apiKey).Some? ==> request.None? && r == Failure(NoApiKeyMessage)
    ensures Truthy(apiKey).Some? && !Truthy(sourceImageUrl).Some? ==> request == Some([TextPart(prompt)])
    ensures Truthy(apiKey).Some? && Truthy(sourceImageUrl).Some? ==>
              var url := sourceImageUrl.value;
              var b := UrlToBase64(url, readBack);
              var mime := MimeType(url);
              if b.Failure? then request.None? && r == Failure(b.error)
              else request == Some([TextPart(prompt),
                                    InlinePart(if mime.Some? then mime.value else "image/png", b.value)])
    ensures request.Some? ==>
              r == (if AnyThrows(chunks) then Failure(TypeErrorMessage) else Finish(LastInline(chunks)))
  {
    if !Truthy(apiKey).Some? {
      return None, Failure(NoApiKeyMessage);
    }
    var parts := [TextPart(prompt)];
    if Truthy(sourceImageUrl).Some? {
      var base64Data := UrlToBase64(sourceImageUrl.value, readBack);
      if base64Data.Failure? {
        return None, Failure(base64Data.error);
      }
      var mimeType := MimeType(sourceImageUrl.value);
      parts := [TextPart(prompt), InlinePart(if mimeType.Some? then mimeType.value else "image/png", base64Data.value)];
    }
    request := Some(parts);
    var found := CollectImage(chunks);
    if found.Failure? {
      r := Failure(found.error);
    } else {
      r := Finish(found.value);
    }
  }

  /** A stream whose last image chunk is followed by a text chunk still yields that image. */
  method StreamScenario()
  {
    var image := Chunk(Some([Candidate(Some(Content(Some([Part(None, Some(InlineData(Some("image/png"), Some("AAAA"))))]))))]), None);
    var text := Chunk(Some([Candidate(Some(Content(Some([Part(Some("done"), None)]))))]), Some("done"));
    var request, r := GenerateBadgeImage(Some("key"), "p", None, None, [image, text]);
    assert !Throws(image) && !Throws(text);
    assert InlineOf(text).None?;
    assert [image, text][..1] == [image];
    assert LastInline([image, text]) == LastInline([image]);
    assert LastInline([image]) == Found(Some("AAAA"), Some("image/png"));
    assert !AnyThrows([image, text]);
    assert Finish(Found(Some("AAAA"), Some("image/png"))) == Success(ImageResult(DataUrl("image/png", "AAAA"), "image/png"));
    assert r == Success(ImageResult(DataUrl("image/png", "AAAA"), "image/png"));
    assert DataUrl("image/png", "AAAA") == "data:image/png;base64,AAAA";
  }
}
