/** services/supabase.ts: where the backend's URL and anonymous key come from,
    and when the backend counts as configured. */
module SupabaseConfig {
  import opened Types

  /** One source of environment variables, `None` when that source does not
      exist in the running environment (`typeof process === 'undefined'`, ...). */
  type EnvTable = Option<map<string, string>>

  /** The three sources in the order they are tried: `import.meta.env`,
      `process.env`, `window._env_`. */
  datatype EnvSources = EnvSources(importMeta: EnvTable, process: EnvTable, window: EnvTable)

  /** `table && table[k]` is truthy: the source exists and holds a non-empty value. */
  predicate Has(t: EnvTable, k: string)
  {
    t.Some? && k in t.value && t.value[k] != ""
  }

  /** `pat` occurs in `s` starting at index `j`. */
  predicate OccursAt(s: string, pat: string, j: int)
  {
    0 <= j && j + |pat| <= |s| && s[j..j + |pat|] == pat
  }

  /** The first occurrence of `pat` in `s` at or after `i`. */
  function IndexFrom(s: string, pat: string, i: nat): (r: Option<nat>)
    decreases |s| - i
    ensures r.Some? ==> i <= r.value && OccursAt(s, pat, r.value)
    ensures r.Some? ==> forall j :: i <= j < r.value ==> !OccursAt(s, pat, j)
    ensures r.None? ==> forall j :: i <= j ==> !OccursAt(s, pat, j)
  {
    if i + |pat| > |s| then None
    else if s[i..i + |pat|] == pat then Some(i)
    else IndexFrom(s, pat, i + 1)
  }

  /** `s.includes(pat)` */
  predicate Includes(s: string, pat: string)
  {
    IndexFrom(s, pat, 0).Some?
  }

  lemma IncludesMeaning(s: string, pat: string)
    ensures Includes(s, pat) <==> exists j :: OccursAt(s, pat, j)
  {
  }

  /** `s.replace(pat, rep)` with a string pattern: only the first occurrence is replaced. */
  function ReplaceFirst(s: string, pat: string, rep: string): string
  {
    match IndexFrom(s, pat, 0)
    case None => s
    case Some(i) => s[..i] + rep + s[i + |pat|..]
  }

  /** The names tried for `key`: itself, then with its first `VITE_` removed. */
  function KeyVariants(key: string): seq<string>
  {
    [key, ReplaceFirst(key, "VITE_", "")]
  }

  /** One name looked up in the three sources, first truthy value wins. */
  function LookupName(env: EnvSources, k: string): string
  {
    if Has(env.importMeta, k) then env.importMeta.value[k]
    else if Has(env.process, k) then env.process.value[k]
    else if Has(env.window, k) then env.window.value[k]
    else ""
  }

  /** The first non-empty value over the names in order, or `''`. */
  function FirstFound(env: EnvSources, names: seq<string>): string
  {
    if names == [] then ""
    else if LookupName(env, names[0]) != "" then LookupName(env, names[0])
    else FirstFound(env, names[1..])
  }

  /** What `getEnv(key)` returns. */
  function EnvLookup(env: EnvSources, key: string): string
  {
    FirstFound(env, KeyVariants(key))
  }

  /** getEnv: for each name variant, try the three sources in turn and return
      the first truthy value; `''` when none is found. */
  method GetEnv(env: EnvSources, key: string) returns (v: string)
    ensures v == EnvLookup(env, key)
  {
    var names := KeyVariants(key);
    for i := 0 to |names|
      invariant FirstFound(env, names) == FirstFound(env, names[i..])
    {
      var k := names[i];
      assert names[i..][1..] == names[i + 1..];
      if Has(env.importMeta, k) {
        return env.importMeta.value[k];
      }
      if Has(env.process, k) {
        return env.process.value[k];
      }
      if Has(env.window, k) {
        return env.window.value[k];
      }
    }
    return "";
  }

  /** A value found is one some source holds under one of the names. */
  lemma {:induction false} FirstFoundSource(env: EnvSources, names: seq<string>)
    requires FirstFound(env, names) != ""
    ensures exists n :: n in names && LookupName(env, n) == FirstFound(env, names)
  {
    if LookupName(env, names[0]) == "" {
      FirstFoundSource(env, names[1..]);
      var n :| n in names[1..] && LookupName(env, n) == FirstFound(env, names[1..]);
      assert n in names;
    }
  }

  /** Nothing is found exactly when no source holds any of the names. */
  lemma {:induction false} FirstFoundEmpty(env: EnvSources, names: seq<string>)
    ensures FirstFound(env, names) == "" <==>
            forall n :: n in names ==> !Has(env.importMeta, n) && !Has(env.process, n) && !Has(env.window, n)
  {
    if names != [] {
      FirstFoundEmpty(env, names[1..]);
      assert forall n :: n in names <==> n == names[0] || n in names[1..];
    }
  }

  /** The name as given beats the `VITE_`-less variant, whatever source holds it. */
  lemma NameBeforeVariant(env: EnvSources, key: string)
    requires LookupName(env, key) != ""
    ensures EnvLookup(env, key) == LookupName(env, key)
  {
  }

  /** `import.meta.env` beats `process.env`, which beats `window._env_`. */
  lemma SourceOrder(env: EnvSources, k: string)
    ensures Has(env.importMeta, k) ==> LookupName(env, k) == env.importMeta.value[k]
    ensures !Has(env.importMeta, k) && Has(env.process, k) ==> LookupName(env, k) == env.process.value[k]
    ensures LookupName(env, k) != "" ==> Has(env.importMeta, k) || Has(env.process, k) || Has(env.window, k)
  {
  }

  lemma StripPrefix(p: string, rest: string)
    ensures ReplaceFirst(p + rest, p, "") == rest
  {
    assert (p + rest)[0..|p|] == p;
    assert (p + rest)[|p|..] == rest;
  }

  lemma ViteVariant()
    ensures KeyVariants("VITE_SUPABASE_URL") == ["VITE_SUPABASE_URL", "SUPABASE_URL"]
    ensures KeyVariants("VITE_SUPABASE_ANON_KEY") == ["VITE_SUPABASE_ANON_KEY", "SUPABASE_ANON_KEY"]
  {
    StripPrefix("VITE_", "SUPABASE_URL");
    StripPrefix("VITE_", "SUPABASE_ANON_KEY");
  }

  const PlaceholderUrl: string := "https://placeholder.supabase.co"

  /** isSupabaseConfigured, on the two looked-up values. */
  predicate IsSupabaseConfigured(url: string, anonKey: string)
  {
    url != "" && anonKey != "" && url != PlaceholderUrl && !Includes(url, "xxxxxxxxxxxx")
  }

  /** The configuration of a given environment. */
  predicate Configured(env: EnvSources)
  {
    IsSupabaseConfigured(EnvLookup(env, "VITE_SUPABASE_URL"), EnvLookup(env, "VITE_SUPABASE_ANON_KEY"))
  }

  /** Configured exactly when both values are present, the URL is not the
      placeholder and the URL nowhere contains the template's `xxxxxxxxxxxx`. */
  lemma ConfiguredMeaning(url: string, anonKey: string)
    ensures IsSupabaseConfigured(url, anonKey) <==>
            url != "" && anonKey != "" && url != PlaceholderUrl
            && forall j :: !OccursAt(url, "xxxxxxxxxxxx", j)
  {
    IncludesMeaning(url, "xxxxxxxxxxxx");
  }

  /** With no URL in any source, under either name, the backend is not configured. */
  lemma NoUrlNotConfigured(env: EnvSources)
    requires forall n :: n in KeyVariants("VITE_SUPABASE_URL") ==>
               !Has(env.importMeta, n) && !Has(env.process, n) && !Has(env.window, n)
    ensures !Configured(env)
  {
    FirstFoundEmpty(env, KeyVariants("VITE_SUPABASE_URL"));
  }

  lemma PlaceholderExamples()
    ensures !IsSupabaseConfigured(PlaceholderUrl, "key")
    ensures !IsSupabaseConfigured("https://xxxxxxxxxxxx.supabase.co", "key")
    ensures !IsSupabaseConfigured("https://abc.supabase.co", "")
  {
    var pre, x, post := "https://", "xxxxxxxxxxxx", ".supabase.co";
    var url := pre + x + post;
    assert url == "https://xxxxxxxxxxxx.supabase.co";
    assert url[|pre|..|pre| + |x|] == x;
    assert OccursAt(url, x, |pre|);
    IncludesMeaning(url, "xxxxxxxxxxxx");
  }
}
