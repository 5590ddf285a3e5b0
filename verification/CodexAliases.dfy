/**
 The alias tables built at discovery against the stability the normalizer needs.
 */
module CodexAliases {
  import opened CodexProofs
  import opened Efforts

  /** Discovered aliases make the Codex normalizer idempotent exactly when "ultra" does not
      stand for the client-local effort; discovery filters that level out first. */
  lemma DiscoveredAliasesAreStable(levels: seq<Effort>, multiAgent: Effort)
    ensures var aliases := Aliases(levels, multiAgent);
      Stable(aliases) <==> !(ULTRA in aliases && aliases[ULTRA] == PERSISTENT)
    ensures PERSISTENT !in levels ==> Stable(Aliases(levels, multiAgent))
  {
    AliasTargets(levels, multiAgent);
    assert PERSISTENT != ULTRA;
  }

  /** Without that filter it can: the alias of these levels is the client-local effort. */
  lemma UnfilteredLevelsAreUnstable()
    ensures !Stable(Aliases([PERSISTENT, ULTRA], ""))
  {
    var levels := [PERSISTENT, ULTRA];
    assert levels[..1] == [PERSISTENT];
    assert PERSISTENT != ULTRA && PERSISTENT != "" && PERSISTENT != "max" && ULTRA != "max";
    assert ULTRA in levels && "max" !in levels;
    assert LastOther(levels) == LastOther(levels[..1]) == PERSISTENT;
    DiscoveredAliasesAreStable(levels, "");
  }
}
