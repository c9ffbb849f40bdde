/** The transcription-provider registry (lib/providers/index.ts): a
    case-insensitive lookup among the registry's own keys that falls back
    to Deepgram. */
module TranscriptionProviders {
  import opened Wrappers
  import opened Text

  /** The registry's own keys; inherited object properties are not among them. */
  const RegistryKeys: set<string> := {"deepgram"}

  const DefaultProvider := "deepgram"

  /** `isKnownProvider`: an own key of the registry. */
  predicate IsKnownProvider(name: string) {
    name in RegistryKeys
  }

  /** The registry key `resolveTranscriptionProvider` returns the entry of:
      the lower-cased name when it is a known key, else Deepgram; a missing
      name means Deepgram. */
  function ResolveTranscriptionProvider(name: Option<string>): (r: string)
    ensures r in RegistryKeys
    ensures name.None? ==> r == DefaultProvider
    ensures name.Some? && IsKnownProvider(ToLower(name.value)) ==> r == ToLower(name.value)
    ensures name.Some? && !IsKnownProvider(ToLower(name.value)) ==> r == DefaultProvider
  {
    var normalized := if name.Some? then ToLower(name.value) else DefaultProvider;
    if IsKnownProvider(normalized) then normalized else DefaultProvider
  }

  /** A name written in any case finds the same provider. */
  lemma ResolveIgnoresCase(name: string)
    ensures ResolveTranscriptionProvider(Some(name)) == ResolveTranscriptionProvider(Some(ToLower(name)))
  {
    assert ToLower(ToLower(name)) == ToLower(name);
  }

  /** Only the registry's own key is a provider: any other name falls back
      to Deepgram. The lookup is `hasOwnProperty`, so names inherited from
      `Object.prototype` (`constructor`, `toString`) are no exception; the
      model has no prototype chain, and this lemma records only the
      fallback for every other name. */
  lemma InheritedNamesUnknown(name: string)
    requires ToLower(name) != DefaultProvider
    ensures !IsKnownProvider(ToLower(name))
    ensures ResolveTranscriptionProvider(Some(name)) == DefaultProvider
  {
  }
}
