/**
 * The supported providers and URL provider detection
 * (`packages/discord-bot/src/utils/providers.ts`, and the identical copy in
 * `packages/discord-bot/src/utils.ts`).
 *
 * `detectURLProvider` is `providers.find(p => url.indexOf(p) > -1)`: the first
 * provider of the list whose name occurs anywhere in the URL, as a plain
 * substring, whatever part of the URL it occurs in.
 */
module ProviderList {
  import opened Wrappers
  import opened Tracks
  import opened Text

  /** The `providers` constant, in the order `find` tries them. */
  const Supported: seq<Provider> := [YouTube, SoundCloud]

  /** Where `find` stops: the index of the first provider whose name occurs in the URL, or the length of the list. */
  function FirstMatch(list: seq<Provider>, url: string): (k: nat)
    ensures k <= |list|
    ensures forall j :: 0 <= j < k ==> !Contains(url, list[j].Name())
    ensures k < |list| ==> Contains(url, list[k].Name())
  {
    if list == [] then 0
    else if Contains(url, list[0].Name()) then 0
    else
      var k := FirstMatch(list[1..], url);
      assert forall j :: 1 <= j < |list| ==> list[j] == list[1..][j - 1];
      k + 1
  }

  /** `list.find(provider => url.indexOf(provider) > -1)`. */
  function FindProvider(list: seq<Provider>, url: string): (r: Option<Provider>)
    ensures r.Some? ==> r.value in list && Contains(url, r.value.Name())
    ensures r.None? <==> forall i :: 0 <= i < |list| ==> !Contains(url, list[i].Name())
    ensures r.Some? ==> exists i :: (0 <= i < |list| && list[i] == r.value &&
      forall j :: 0 <= j < i ==> !Contains(url, list[j].Name()))
  {
    var k := FirstMatch(list, url);
    if k < |list| then Some(list[k]) else None
  }

  /** detectURLProvider. */
  function DetectURLProvider(url: string): Option<Provider> {
    FindProvider(Supported, url)
  }

  /** providersList: the names of the supported providers, in order. */
  function ProvidersList(): (names: seq<string>)
    ensures |names| == |Supported|
    ensures forall i :: 0 <= i < |Supported| ==> names[i] == Supported[i].Name()
  {
    seq(|Supported|, i requires 0 <= i < |Supported| => Supported[i].Name())
  }

  /** `"soundcloud"` does not contain `"youtube"`. */
  lemma SoundcloudNameIsNotYoutube()
    ensures !Contains("soundcloud", "youtube")
  {
    assert forall k :: 0 <= k < |"soundcloud"| ==> "soundcloud"[k] != 'y';
    NotContainsWithoutHead("soundcloud", "youtube");
  }

  /**
   * The three outcomes of detection: `youtube` whenever its name occurs
   * (so it wins when both occur), `soundcloud` when only its name occurs,
   * and nothing when neither does.
   */
  lemma DetectOutcomes(url: string)
    ensures DetectURLProvider(url) == Some(YouTube) <==> Contains(url, "youtube")
    ensures DetectURLProvider(url) == Some(SoundCloud) <==> !Contains(url, "youtube") && Contains(url, "soundcloud")
    ensures DetectURLProvider(url).None? <==> !Contains(url, "youtube") && !Contains(url, "soundcloud")
  {
    var r := DetectURLProvider(url);
    assert Supported[0].Name() == "youtube" && Supported[1].Name() == "soundcloud";
    if r.Some? {
      var i :| 0 <= i < |Supported| && Supported[i] == r.value &&
        forall j :: 0 <= j < i ==> !Contains(url, Supported[j].Name());
    }
  }

  /** A provider name occurring anywhere in the URL, at any index, is detected. */
  lemma DetectAnywhere(url: string, p: Provider, i: int)
    requires OccursAt(url, p.Name(), i)
    ensures DetectURLProvider(url).Some?
    ensures p == YouTube ==> DetectURLProvider(url) == Some(YouTube)
  {
    OccursContains(url, p.Name(), i);
    DetectOutcomes(url);
  }

  /** providersList and detectURLProvider agree: each listed name is detected as its provider. */
  lemma ListedNamesDetected()
    ensures forall i :: 0 <= i < |ProvidersList()| ==> DetectURLProvider(ProvidersList()[i]) == Some(Supported[i])
  {
    ContainsItself("youtube");
    ContainsItself("soundcloud");
    DetectOutcomes("youtube");
    DetectOutcomes("soundcloud");
    SoundcloudNameIsNotYoutube();
  }
}
