/** Resolving a manifest's layer name to a key of the model's state dict. */
module LayerNames {
  import opened Prelude

  predicate StartsWith(s: string, prefix: string) {
    prefix <= s
  }

  predicate EndsWith(s: string, suffix: string) {
    |suffix| <= |s| && s[|s| - |suffix|..] == suffix
  }

  // The spellings tried, most literal first.
  function Candidates(name: string): (cs: seq<string>)
    ensures |cs| > 0 && cs[0] == name
  {
    [name]
    + (if StartsWith(name, "model.") then [name[|"model."|..]] else ["model." + name])
    + (if StartsWith(name, "model.layers.") then ["model.model.layers." + name[|"model.layers."|..]] else [])
    + (if StartsWith(name, "model.model.layers.") then ["model.layers." + name[|"model.model.layers."|..]] else [])
    + (if StartsWith(name, "layers.")
       then ["model.layers." + name[|"layers."|..], "model.model.layers." + name[|"layers."|..]] else [])
  }

  lemma EndsWithMeans(s: string, suffix: string)
    ensures EndsWith(s, suffix) <==> exists start :: s == start + suffix
  {
    if EndsWith(s, suffix) {
      assert s == s[..|s| - |suffix|] + suffix;
    }
  }

  // The spellings by the way a name begins: the prefix "model." is dropped or put before,
  // "model.layers." and "model.model.layers." stand for each other, and both for "layers.".
  lemma CandidateFamilies(name: string, rest: string)
    ensures Candidates("model." + rest)[1] == rest
    ensures !("model." <= name) ==> Candidates(name)[1] == "model." + name
    ensures "model.model.layers." + rest in Candidates("model.layers." + rest)
    ensures "model.layers." + rest in Candidates("model.model.layers." + rest)
    ensures "model.layers." + rest in Candidates("layers." + rest)
    ensures "model.model.layers." + rest in Candidates("layers." + rest)
  {
    assert ("model." + rest)[|"model."|..] == rest;
    assert ("model.layers." + rest)[|"model.layers."|..] == rest;
    assert ("model.model.layers." + rest)[|"model.model.layers."|..] == rest;
    assert ("layers." + rest)[|"layers."|..] == rest;
  }

  ghost predicate NoneBefore(cs: seq<string>, i: nat, keys: set<string>) {
    forall j :: 0 <= j < i && j < |cs| ==> cs[j] !in keys
  }

  function FirstPresent(cs: seq<string>, keys: set<string>): (r: Option<string>)
    ensures r.Some? ==> r.value in keys && exists i :: 0 <= i < |cs| && cs[i] == r.value && NoneBefore(cs, i, keys)
    ensures r.None? <==> forall c :: c in cs ==> c !in keys
  {
    if cs == [] then None
    else if cs[0] in keys then Some(cs[0])
    else
      var r := FirstPresent(cs[1..], keys);
      assert r.Some? ==> exists i: nat :: i < |cs| && cs[i] == r.value && NoneBefore(cs, i, keys) by {
        if r.Some? {
          var i: nat :| i < |cs| - 1 && cs[1..][i] == r.value && NoneBefore(cs[1..], i, keys);
          assert cs[i + 1] == r.value && NoneBefore(cs, i + 1, keys);
        }
      }
      r
  }

  // The only element of a one-element set.
  ghost function Sole(matches: set<string>): (r: Option<string>)
    ensures r.Some? <==> |matches| == 1
    ensures r.Some? ==> matches == {r.value}
  {
    if |matches| != 1 then None
    else
      var k :| k in matches;
      assert |matches - {k}| == 0;
      Some(k)
  }

  // The keys that end in the name, and those the name ends in.
  function Longer(name: string, keys: set<string>): set<string> {
    set k | k in keys && EndsWith(k, name)
  }

  function Shorter(name: string, keys: set<string>): set<string> {
    set k | k in keys && EndsWith(name, k)
  }

  // None where the source raises ValueError. The answer is always a key of the
  // model, and a name that is a key stands for itself.
  ghost function ResolveLayerName(name: string, keys: set<string>): (r: Option<string>)
    ensures r.Some? ==> r.value in keys
    ensures name in keys ==> r == Some(name)
    ensures r.Some? ==> r.value in Candidates(name) || EndsWith(r.value, name) || EndsWith(name, r.value)
    ensures FirstPresent(Candidates(name), keys).Some? ==> r == FirstPresent(Candidates(name), keys)
    ensures FirstPresent(Candidates(name), keys).None? ==>
      r.Some? == (|Longer(name, keys)| == 1 || |Shorter(name, keys)| == 1)
    ensures r.Some? && r.value !in Candidates(name) ==>
      Longer(name, keys) == {r.value} || (|Longer(name, keys)| != 1 && Shorter(name, keys) == {r.value})
  {
    var direct := FirstPresent(Candidates(name), keys);
    if direct.Some? then direct
    else
      var longer := Sole(Longer(name, keys));
      if longer.Some? then longer
      else Sole(Shorter(name, keys))
  }
}
