/** The claim extractor's structured output (`claimsSchema`) and the part of
    its prompt that carries data: the documentation and the transcript. */
module ClaimExtractor {
  import opened Wrappers
  import opened Js
  import Text

  datatype Claim = Claim(name: string, description: string)

  /** The validated output. The schema declares no `mainAgent` field, so a
      model's `mainAgent` never survives validation. */
  datatype ClaimsOutput = ClaimsOutput(claims: seq<Claim>)

  function ParseClaim(v: Value): Option<Claim> {
    var name := AsString(Get(v, "name"));
    var description := AsString(Get(v, "description"));
    if v.Obj? && name.Some? && description.Some?
    then Some(Claim(name.value, description.value))
    else None
  }

  /** Validation accepts any object whose `claims` is an array of
      `{name, description}` string pairs: the word limits and the "no
      duplicates" rule are descriptions only. */
  function ParseClaims(v: Value): (r: Option<ClaimsOutput>)
    ensures r.Some? <==> v.Obj? && Get(v, "claims").Arr?
                         && forall k :: 0 <= k < |Get(v, "claims").items| ==>
                              ParseClaim(Get(v, "claims").items[k]).Some?
  {
    var claimsV := Get(v, "claims");
    var claims := if claimsV.Arr? then DecodeAll(claimsV.items, ParseClaim) else None;
    if v.Obj? && claims.Some? then Some(ClaimsOutput(claims.value)) else None
  }

  function EncodeClaim(c: Claim): Value {
    Obj(map["name" := Str(c.name), "description" := Str(c.description)])
  }

  function EncodeClaims(o: ClaimsOutput): Value {
    Obj(map["claims" := Arr(EncodeAll(o.claims, EncodeClaim))])
  }

  /** Every list of claims, empty, duplicated or with long names, survives
      validation unchanged. */
  lemma ClaimsRoundTrip(o: ClaimsOutput)
    ensures ParseClaims(EncodeClaims(o)) == Some(o)
  {
    assert forall k :: 0 <= k < |o.claims| ==> ParseClaim(EncodeClaim(o.claims[k])) == Some(o.claims[k]);
    DecodeEncodeAll(o.claims, EncodeClaim, ParseClaim);
  }

  /** A `mainAgent` field in the model's raw output is dropped. */
  lemma MainAgentDropped(fields: map<string, Value>, guess: Value)
    requires "mainAgent" !in fields
    ensures ParseClaims(Obj(fields["mainAgent" := guess])) == ParseClaims(Obj(fields))
  {
    assert Get(Obj(fields["mainAgent" := guess]), "claims") == Get(Obj(fields), "claims");
  }

  /** The fixed text between the instructions and the data. */
  const DocumentationHeading := "## Sources\n\n**Documentation**\n"
  const TranscriptHeading := "\n\n**Video transcript**\n"

  /** The extractor prompt: `instructions` is the fixed prose that precedes
      the sources (not modelled); the documentation and the transcript are
      embedded verbatim, documentation first. */
  function ClaimExtractorPrompt(instructions: string, documentation: string, transcript: string): (r: string)
    ensures var d := |instructions| + |DocumentationHeading|;
            var t := d + |documentation| + |TranscriptHeading|;
            && t + |transcript| < |r|
            && r[d..d + |documentation|] == documentation
            && r[t..t + |transcript|] == transcript
            && r[|r| - 1] == '\n'
  {
    instructions + DocumentationHeading + documentation + TranscriptHeading + transcript + "\n"
  }
}
