/**
 * Metadata handling for the permanent-storage network: the metadata record,
 * its validator, the upload stub and its batch aggregation, the mock content
 * hash, and the sample metadata builder.
 */
module Arweave {

  import opened Wrappers
  import opened CheckOrder
  import opened NumberText

  // ---------------------------------------------------------------------------
  // Metadata record

  datatype FileRef = FileRef(uri: string, fileType: string)

  datatype Creator = Creator(address: string, share: int)

  datatype Category = Image | Video | Audio

  datatype AttributeValue = Text(text: string) | Number(number: real)

  datatype Attribute = Attribute(traitType: string, value: AttributeValue)

  /** Each field may be absent in metadata received at run time, whatever its declared type. */
  datatype Properties = Properties(
    files: Option<seq<FileRef>>,
    category: Option<Category>,
    creators: Option<seq<Creator>>)

  datatype Collection = Collection(name: string, family: string)

  /**
   * The metadata record. An absent name or image is falsy and fails its
   * check exactly as the empty string does, so both are plain strings here
   * and absence is written "".
   */
  datatype NftMetadata = NftMetadata(
    name: string,
    description: string,
    image: string,
    attributes: Option<seq<Attribute>>,
    properties: Properties,
    collection: Option<Collection>)

  // ---------------------------------------------------------------------------
  // String.prototype.trim

  /** The characters JavaScript's trim removes: WhiteSpace and LineTerminator of ECMAScript. */
  predicate IsJsWhitespace(c: char) {
    c == ' ' || c == '\t' || c == '\n' || c == '\r' || c == '\U{000B}' || c == '\U{000C}' ||
    c == '\U{00A0}' || c == '\U{1680}' || ('\U{2000}' <= c <= '\U{200A}') ||
    c == '\U{2028}' || c == '\U{2029}' || c == '\U{202F}' || c == '\U{205F}' ||
    c == '\U{3000}' || c == '\U{FEFF}'
  }

  predicate IsBlank(s: string) {
    forall i :: 0 <= i < |s| ==> IsJsWhitespace(s[i])
  }

  function TrimStart(s: string): string {
    if s != [] && IsJsWhitespace(s[0]) then TrimStart(s[1..]) else s
  }

  function TrimEnd(s: string): string {
    if s != [] && IsJsWhitespace(s[|s| - 1]) then TrimEnd(s[..|s| - 1]) else s
  }

  /** String.prototype.trim: whitespace removed from both ends. */
  function Trim(s: string): string {
    TrimEnd(TrimStart(s))
  }

  /** Removing leading whitespace leaves nothing exactly for a blank string, and otherwise stops at a non-blank character. */
  lemma {:induction false} TrimStartBlank(s: string)
    ensures TrimStart(s) == [] <==> IsBlank(s)
    ensures TrimStart(s) == [] || !IsJsWhitespace(TrimStart(s)[0])
  {
    if s != [] && IsJsWhitespace(s[0]) {
      TrimStartBlank(s[1..]);
      assert IsBlank(s) <==> IsBlank(s[1..]) by {
        assert forall i :: 0 < i < |s| ==> s[i] == s[1..][i - 1];
      }
    }
  }

  /** Removing trailing whitespace leaves nothing exactly for a blank string. */
  lemma {:induction false} TrimEndBlank(s: string)
    ensures TrimEnd(s) == [] <==> IsBlank(s)
  {
    if s != [] && IsJsWhitespace(s[|s| - 1]) {
      TrimEndBlank(s[..|s| - 1]);
      assert IsBlank(s) <==> IsBlank(s[..|s| - 1]) by {
        assert forall i :: 0 <= i < |s| - 1 ==> s[i] == s[..|s| - 1][i];
      }
    }
  }

  /** Trimming leaves nothing exactly when the string is empty or all whitespace. */
  lemma TrimEmptyIffBlank(s: string)
    ensures Trim(s) == "" <==> IsBlank(s)
  {
    var t := TrimStart(s);
    TrimStartBlank(s);
    TrimEndBlank(t);
    if t != [] {
      assert !IsBlank(t) by { assert !IsJsWhitespace(t[0]); }
    }
  }

  /** The validator's test for a required text field: falsy, or nothing left after trimming. */
  function IsMissingText(s: string): (missing: bool)
    ensures missing <==> IsBlank(s)
  {
    TrimEmptyIffBlank(s);
    s == "" || Trim(s) == ""
  }

  // ---------------------------------------------------------------------------
  // validateMetadata

  const NameRequired := "Name is required"
  const ImageRequired := "Image URI is required"
  const FilesRequired := "Properties.files is required"
  const CategoryRequired := "Properties.category is required"
  const CreatorRequired := "At least one creator is required"

  /** The messages of the metadata checks, in the order the checks run. */
  const MetadataChecks := [NameRequired, ImageRequired, FilesRequired, CategoryRequired, CreatorRequired]

  datatype Validation = Validation(valid: bool, errors: seq<string>)

  predicate HasNoCreator(m: NftMetadata) {
    m.properties.creators.None? || m.properties.creators.value == []
  }

  /** The list the validator reports: one message per failed check, in check order. */
  function MetadataErrors(m: NftMetadata): seq<string> {
    FailedChecks(IsBlank(m.name), IsBlank(m.image), m.properties.files.None?,
                 m.properties.category.None?, HasNoCreator(m))
  }

  /** The messages of the failed checks, given whether each of the five checks fails. */
  function FailedChecks(name: bool, image: bool, files: bool, category: bool, creator: bool): seq<string> {
    IfFailed(name, NameRequired) + IfFailed(image, ImageRequired) + IfFailed(files, FilesRequired) +
    IfFailed(category, CategoryRequired) + IfFailed(creator, CreatorRequired)
  }

  /** Each message is reported exactly when its check fails. */
  lemma FailedChecksMembers(name: bool, image: bool, files: bool, category: bool, creator: bool)
    ensures NameRequired in FailedChecks(name, image, files, category, creator) <==> name
    ensures ImageRequired in FailedChecks(name, image, files, category, creator) <==> image
    ensures FilesRequired in FailedChecks(name, image, files, category, creator) <==> files
    ensures CategoryRequired in FailedChecks(name, image, files, category, creator) <==> category
    ensures CreatorRequired in FailedChecks(name, image, files, category, creator) <==> creator
  {
    assert NameRequired != ImageRequired && NameRequired != FilesRequired;
    assert NameRequired != CategoryRequired && NameRequired != CreatorRequired;
    assert ImageRequired != FilesRequired && ImageRequired != CategoryRequired;
    assert ImageRequired != CreatorRequired && FilesRequired != CategoryRequired;
    assert FilesRequired != CreatorRequired && CategoryRequired != CreatorRequired;
  }

  lemma MetadataRanks()
    ensures Rank(MetadataChecks, NameRequired) == 0
    ensures Rank(MetadataChecks, ImageRequired) == 1
    ensures Rank(MetadataChecks, FilesRequired) == 2
    ensures Rank(MetadataChecks, CategoryRequired) == 3
    ensures Rank(MetadataChecks, CreatorRequired) == 4
  {
    var order := MetadataChecks;
    assert order[1..][1..][1..][1..] == [CreatorRequired];
  }

  /** The messages come in check order, each at most once, so there are at most five. */
  lemma FailedChecksInOrder(name: bool, image: bool, files: bool, category: bool, creator: bool)
    ensures InCheckOrder(FailedChecks(name, image, files, category, creator), MetadataChecks)
    ensures |FailedChecks(name, image, files, category, creator)| <= 5
  {
    MetadataRanks();
    var order := MetadataChecks;
    var s0: seq<string> := [];
    Then(s0, order, name, NameRequired);
    var s1 := s0 + IfFailed(name, NameRequired);
    Then(s1, order, image, ImageRequired);
    var s2 := s1 + IfFailed(image, ImageRequired);
    Then(s2, order, files, FilesRequired);
    var s3 := s2 + IfFailed(files, FilesRequired);
    Then(s3, order, category, CategoryRequired);
    var s4 := s3 + IfFailed(category, CategoryRequired);
    Then(s4, order, creator, CreatorRequired);
    assert s0 + IfFailed(name, NameRequired) == IfFailed(name, NameRequired);
    InCheckOrderBound(FailedChecks(name, image, files, category, creator), order);
  }

  /**
   * The reported list is the only one of its kind: any list of check
   * messages in check order that holds exactly the messages of the failed
   * checks is the validator's list.
   */
  lemma MetadataErrorsDetermined(m: NftMetadata, errors: seq<string>)
    requires InCheckOrder(errors, MetadataChecks)
    requires NameRequired in errors <==> IsBlank(m.name)
    requires ImageRequired in errors <==> IsBlank(m.image)
    requires FilesRequired in errors <==> m.properties.files.None?
    requires CategoryRequired in errors <==> m.properties.category.None?
    requires CreatorRequired in errors <==> HasNoCreator(m)
    ensures errors == MetadataErrors(m)
  {
    var spec := MetadataErrors(m);
    FailedChecksMembers(IsBlank(m.name), IsBlank(m.image), m.properties.files.None?,
                        m.properties.category.None?, HasNoCreator(m));
    FailedChecksInOrder(IsBlank(m.name), IsBlank(m.image), m.properties.files.None?,
                        m.properties.category.None?, HasNoCreator(m));
    forall e
      ensures e in errors <==> e in spec
    {
      if e in errors {
        var i :| 0 <= i < |errors| && errors[i] == e;
        assert e in MetadataChecks;
      }
      if e in spec {
        var i :| 0 <= i < |spec| && spec[i] == e;
        assert e in MetadataChecks;
      }
    }
    InCheckOrderUnique(errors, spec, MetadataChecks);
  }

  /**
   * Runs the five checks in order and appends one message per failed check;
   * the metadata is valid when no message was appended.
   */
  method ValidateMetadata(m: NftMetadata) returns (r: Validation)
    ensures r.errors == MetadataErrors(m)
    ensures r.valid <==> r.errors == []
    ensures r.valid <==> !IsBlank(m.name) && !IsBlank(m.image) && m.properties.files.Some? &&
                         m.properties.category.Some? && !HasNoCreator(m)
    ensures InCheckOrder(r.errors, MetadataChecks) && |r.errors| <= 5
    ensures NameRequired in r.errors <==> IsBlank(m.name)
    ensures ImageRequired in r.errors <==> IsBlank(m.image)
    ensures FilesRequired in r.errors <==> m.properties.files.None?
    ensures CategoryRequired in r.errors <==> m.properties.category.None?
    ensures CreatorRequired in r.errors <==> HasNoCreator(m)
  {
    var nameMissing := IsMissingText(m.name);
    var imageMissing := IsMissingText(m.image);
    var filesMissing := m.properties.files.None?;
    var categoryMissing := m.properties.category.None?;
    var creatorMissing := m.properties.creators.None? || |m.properties.creators.value| == 0;

    var errors: seq<string> := [];
    if nameMissing {
      errors := errors + [NameRequired];
    }
    assert errors == IfFailed(nameMissing, NameRequired);
    if imageMissing {
      errors := errors + [ImageRequired];
    }
    assert errors == IfFailed(nameMissing, NameRequired)
                   + IfFailed(imageMissing, ImageRequired);
    if filesMissing {
      errors := errors + [FilesRequired];
    }
    assert errors == IfFailed(nameMissing, NameRequired)
                   + IfFailed(imageMissing, ImageRequired)
                   + IfFailed(filesMissing, FilesRequired);
    if categoryMissing {
      errors := errors + [CategoryRequired];
    }
    assert errors == IfFailed(nameMissing, NameRequired)
                   + IfFailed(imageMissing, ImageRequired)
                   + IfFailed(filesMissing, FilesRequired)
                   + IfFailed(categoryMissing, CategoryRequired);
    if creatorMissing {
      errors := errors + [CreatorRequired];
    }
    assert errors == IfFailed(nameMissing, NameRequired)
                   + IfFailed(imageMissing, ImageRequired)
                   + IfFailed(filesMissing, FilesRequired)
                   + IfFailed(categoryMissing, CategoryRequired)
                   + IfFailed(creatorMissing, CreatorRequired);
    r := Validation(|errors| == 0, errors);

    assert errors == FailedChecks(nameMissing, imageMissing, filesMissing, categoryMissing, creatorMissing);
    assert creatorMissing == HasNoCreator(m);
    FailedChecksMembers(nameMissing, imageMissing, filesMissing, categoryMissing, creatorMissing);
    FailedChecksInOrder(nameMissing, imageMissing, filesMissing, categoryMissing, creatorMissing);
  }

  // ---------------------------------------------------------------------------
  // uploadMetadataToArweave and uploadBatchMetadataToArweave

  const ArweaveGateway := "https://arweave.net/"

  datatype UploadResult = UploadResult(uri: string, success: bool)

  /** The single upload stub: it always succeeds, at the gateway URI of a fresh mock hash. */
  function UploadMetadata(metadata: NftMetadata, hash: string): (r: UploadResult)
    ensures r.success && r.uri != ""
    ensures |ArweaveGateway| <= |r.uri| && r.uri[..|ArweaveGateway|] == ArweaveGateway
    ensures r.uri[|ArweaveGateway|..] == hash
  {
    UploadResult(ArweaveGateway + hash, true)
  }

  /** How one upload promise settled. */
  datatype Settled = Fulfilled(value: UploadResult) | Rejected

  predicate Succeeded(s: Settled) {
    s.Fulfilled? && s.value.success
  }

  /** The number of uploads that settled successfully. */
  function SuccessCount(results: seq<Settled>): (n: nat)
    ensures n <= |results|
  {
    if results == [] then 0
    else SuccessCount(results[..|results| - 1]) + (if Succeeded(results[|results| - 1]) then 1 else 0)
  }

  /** Every upload succeeded exactly when the count reaches the batch size. */
  lemma {:induction false} SuccessCountAll(results: seq<Settled>)
    ensures SuccessCount(results) == |results| <==> forall i :: 0 <= i < |results| ==> Succeeded(results[i])
  {
    if results != [] {
      var front := results[..|results| - 1];
      SuccessCountAll(front);
      assert forall i :: 0 <= i < |front| ==> front[i] == results[i];
    }
  }

  /** No upload succeeded exactly when the count is zero. */
  lemma {:induction false} SuccessCountNone(results: seq<Settled>)
    ensures SuccessCount(results) == 0 <==> forall i :: 0 <= i < |results| ==> !Succeeded(results[i])
  {
    if results != [] {
      var front := results[..|results| - 1];
      SuccessCountNone(front);
      assert forall i :: 0 <= i < |front| ==> front[i] == results[i];
    }
  }

  /** Counting a batch in two parts gives the count of the whole. */
  lemma {:induction false} SuccessCountSplit(a: seq<Settled>, b: seq<Settled>)
    ensures SuccessCount(a + b) == SuccessCount(a) + SuccessCount(b)
  {
    if b != [] {
      SuccessCountSplit(a, b[..|b| - 1]);
      assert (a + b)[..|a + b| - 1] == a + b[..|b| - 1];
    } else {
      assert a + b == a;
    }
  }

  /** When every item went through the upload stub, the whole batch succeeds. */
  lemma UploadedBatchSucceeds(results: seq<Settled>, metadata: seq<NftMetadata>, hashes: seq<string>)
    requires |metadata| == |hashes| == |results|
    requires forall i :: 0 <= i < |results| ==> results[i] == Fulfilled(UploadMetadata(metadata[i], hashes[i]))
    ensures SuccessCount(results) == |results|
  {
    SuccessCountAll(results);
  }

  datatype BatchUpload = BatchUpload(uris: seq<string>, successCount: nat)

  /**
   * Folds the settled uploads, in input order, into one URI per item (the
   * empty string for an item that did not succeed) and the number of
   * successes.
   */
  method AggregateBatch(results: seq<Settled>) returns (r: BatchUpload)
    ensures |r.uris| == |results|
    ensures forall i :: 0 <= i < |results| ==>
      r.uris[i] == if Succeeded(results[i]) then results[i].value.uri else ""
    ensures r.successCount == SuccessCount(results) && r.successCount <= |results|
    ensures (forall i :: 0 <= i < |results| && Succeeded(results[i]) ==> results[i].value.uri != "") ==>
      forall i :: 0 <= i < |results| ==> (r.uris[i] == "" <==> !Succeeded(results[i]))
  {
    var uris: seq<string> := [];
    var successCount: nat := 0;
    for k := 0 to |results|
      invariant |uris| == k
      invariant forall i :: 0 <= i < k ==>
        uris[i] == if Succeeded(results[i]) then results[i].value.uri else ""
      invariant successCount == SuccessCount(results[..k])
    {
      assert results[..k + 1][..k] == results[..k];
      if results[k].Fulfilled? && results[k].value.success {
        uris := uris + [results[k].value.uri];
        successCount := successCount + 1;
      } else {
        uris := uris + [""];
      }
    }
    assert results[..|results|] == results;
    r := BatchUpload(uris, successCount);
  }

  // ---------------------------------------------------------------------------
  // generateMockHash

  /** The URL-safe base64 alphabet the mock hash draws from. */
  const HashAlphabet := "ABCDEFGHIJKLMNOPQRSTUVWXYZabcdefghijklmnopqrstuvwxyz0123456789-_"

  const HashLength := 43

  /** Math.floor(roll * chars.length) for a roll of Math.random. */
  function AlphabetIndex(roll: real): (k: nat)
    requires 0.0 <= roll < 1.0
    ensures k < |HashAlphabet|
    ensures k as real <= roll * |HashAlphabet| as real < k as real + 1.0
  {
    (roll * |HashAlphabet| as real).Floor
  }

  /** Every character of the alphabet is drawn for some roll. */
  lemma AlphabetIndexReaches(k: nat)
    requires k < |HashAlphabet|
    ensures 0.0 <= k as real / |HashAlphabet| as real < 1.0
    ensures AlphabetIndex(k as real / |HashAlphabet| as real) == k
  {
  }

  /** Builds the 43-character hash, drawing character i with roll i. */
  method GenerateMockHash(rolls: seq<real>) returns (hash: string)
    requires |rolls| == HashLength
    requires forall i :: 0 <= i < |rolls| ==> 0.0 <= rolls[i] < 1.0
    ensures |hash| == HashLength
    ensures forall i :: 0 <= i < |hash| ==> hash[i] in HashAlphabet
    ensures forall i :: 0 <= i < |hash| ==> hash[i] == HashAlphabet[AlphabetIndex(rolls[i])]
  {
    hash := "";
    for i := 0 to HashLength
      invariant |hash| == i
      invariant forall j :: 0 <= j < i ==> hash[j] == HashAlphabet[AlphabetIndex(rolls[j])]
    {
      hash := hash + [HashAlphabet[AlphabetIndex(rolls[i])]];
    }
  }

  // ---------------------------------------------------------------------------
  // generateSampleMetadata

  const Rarities := ["Common", "Uncommon", "Rare", "Epic", "Legendary"]

  const SampleCreatorAddress := "CreatorAddressHere"

  /** The sample name; the index prints in plain decimal, as JavaScript does below 10^21 in magnitude. */
  function SampleName(index: int, collectionName: string): string {
    collectionName + " #" + IntToDecimal(index)
  }

  function SampleImage(index: int, collectionName: string): string {
    "https://via.placeholder.com/400x400?text=" + collectionName + "+" + IntToDecimal(index)
  }

  /**
   * Sample metadata for item index of a collection; the rarity and the level
   * come from two rolls of Math.random.
   */
  function SampleMetadata(index: int, collectionName: string, rarityRoll: real, levelRoll: real): (m: NftMetadata)
    requires 0.0 <= rarityRoll < 1.0 && 0.0 <= levelRoll < 1.0
    ensures m.name == SampleName(index, collectionName)
    ensures m.name[..|collectionName| + 2] == collectionName + " #"
    ensures m.properties.files == Some([FileRef(m.image, "image/png")])
    ensures m.properties.category == Some(Image)
    ensures m.properties.creators == Some([Creator(SampleCreatorAddress, 100)])
    ensures m.collection == Some(Collection(collectionName, collectionName))
    ensures m.attributes.Some? && |m.attributes.value| == 2
    ensures m.attributes.value[0].value.Text? && m.attributes.value[0].value.text in Rarities
    ensures m.attributes.value[1].value.Number?
    ensures 1.0 <= m.attributes.value[1].value.number <= 100.0
  {
    var rarity := Rarities[(rarityRoll * 5.0).Floor];
    var level := (levelRoll * 100.0).Floor + 1;
    var image := SampleImage(index, collectionName);
    NftMetadata(
      SampleName(index, collectionName),
      "A unique NFT from the " + collectionName + " collection on Solana",
      image,
      Some([Attribute("Rarity", Text(rarity)), Attribute("Level", Number(level as real))]),
      Properties(Some([FileRef(image, "image/png")]), Some(Image), Some([Creator(SampleCreatorAddress, 100)])),
      Some(Collection(collectionName, collectionName)))
  }

  /** Sample metadata passes every check of the validator. */
  lemma SampleMetadataIsValid(index: int, collectionName: string, rarityRoll: real, levelRoll: real)
    requires 0.0 <= rarityRoll < 1.0 && 0.0 <= levelRoll < 1.0
    ensures MetadataErrors(SampleMetadata(index, collectionName, rarityRoll, levelRoll)) == []
  {
    var m := SampleMetadata(index, collectionName, rarityRoll, levelRoll);
    assert m.name[|collectionName| + 1] == '#';
    var host := "https://via.placeholder.com/400x400?text=";
    assert m.image == host + (collectionName + "+" + IntToDecimal(index));
    assert m.image[0] == host[0] == 'h';
  }

  /** Two items of the same collection get different names. */
  lemma SampleNamesDistinct(i: int, j: int, collectionName: string)
    requires i != j
    ensures SampleName(i, collectionName) != SampleName(j, collectionName)
  {
    var prefix := collectionName + " #";
    if SampleName(i, collectionName) == SampleName(j, collectionName) {
      assert SampleName(i, collectionName)[|prefix|..] == IntToDecimal(i);
      assert SampleName(j, collectionName)[|prefix|..] == IntToDecimal(j);
      IntToDecimalInjective(i, j);
    }
  }
}
