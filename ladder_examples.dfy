/** A worked resolution over the NPC ladder, with concrete stems, backend and file. */
module LadderExamples {
  import opened Wrappers
  import opened Decimal
  import opened QuestPaths
  import opened Resolver

  /** The Perl candidate for the last NPC stem, spelled out. */
  lemma DefaultTemplateFile()
    ensures Candidate(DirStem(TemplatesDir, "default"), map[PerlBackendId := "pl"], Backend(PerlBackendId, 0))
      == "quests/templates/default.pl"
  {
    var a := Candidate(DirStem(TemplatesDir, "default"), map[PerlBackendId := "pl"], Backend(PerlBackendId, 0));
    var b := "quests/templates/default.pl";
    assert |a| == |b|;
    forall k | 0 <= k < |a| ensures a[k] == b[k] { }
  }

  /** With only templates/default.pl present, the five earlier NPC tiers miss and the sixth hits. */
  lemma TemplatesDefaultIsFirst(stems: seq<string>, perl: Backend, ext: map<BackendId, string>, files: set<string>)
    requires stems == NpcLadder("qeynos", 7, Some("Bob`Smith"))
    requires perl == Backend(PerlBackendId, 0) && ext == map[PerlBackendId := "pl"]
    requires files == {"quests/templates/default.pl"}
    ensures FirstExisting(stems, [perl], ext, files, 5, 0)
  {
    var id, n := NatToString(7), Sanitized("Bob`Smith");
    assert |id| == 1 && |n| == 9;
    assert stems == [DirStem("qeynos", id), DirStem("qeynos", n), DirStem(TemplatesDir, id),
      DirStem(TemplatesDir, n), DirStem("qeynos", "default"), DirStem(TemplatesDir, "default")];
    assert ext[perl.id] == "pl";
    // the earlier candidates differ in length from the one file present
    var lens := [18, 26, 21, 29, 24];
    forall i | 0 <= i < 5 ensures Candidate(stems[i], ext, perl) !in files {
      assert |Candidate(stems[i], ext, perl)| == lens[i];
    }
    DefaultTemplateFile();
    assert Candidate(stems[5], ext, perl) in files;
  }

  /** The resolver then returns that file after six probes. */
  lemma TemplatesDefaultExample(stems: seq<string>, perl: Backend, ext: map<BackendId, string>, files: set<string>)
    requires stems == NpcLadder("qeynos", 7, Some("Bob`Smith"))
    requires perl == Backend(PerlBackendId, 0) && ext == map[PerlBackendId := "pl"]
    requires files == {"quests/templates/default.pl"}
    ensures var r := ResolveLadder(stems, [perl], ext, files);
      r.hit == Some(Hit(perl, "quests/templates/default.pl")) && |r.trail| == 6
  {
    TemplatesDefaultIsFirst(stems, perl, ext, files);
    LadderFindsFirst(stems, [perl], ext, files, 5, 0);
    assert stems[5] == DirStem(TemplatesDir, "default");
    DefaultTemplateFile();
  }
}
