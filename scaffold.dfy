/**
 * Scaffolding of a test project for Playwright or Cypress: optionally delete
 * the test directory, create it again, and, unless the tests are written in
 * Python, lay down the framework's project files and run the package manager.
 *
 * Each scaffolder is a method on the `Host` whose new disk and new trace are
 * given by a function of the old ones; the lemmas below say what those
 * functions promise.
 */
module Scaffold {

  import opened Platform

  /** `delete_entire_dir`: remove `dir` and everything below it; a missing directory is not an error. */
  method DeleteEntireDir(host: Host, dir: Path)
    modifies host`disk, host`trace
    ensures host.disk == WithoutTree(old(host.disk), dir)
    ensures host.trace == old(host.trace) + [RemovedTree(dir)]
  {
    host.disk := WithoutTree(host.disk, dir);
    host.trace := host.trace + [RemovedTree(dir)];
  }

  /** The disk once the test directory has been deleted when `clean` is set, then created if absent. */
  function Prepared(disk: Disk, root: Path, clean: bool): (r: Disk)
    ensures root in r
  {
    var d := if clean then WithoutTree(disk, root) else disk;
    if root in d then d else d[root := map[]]
  }

  /** The first steps of both scaffolders: the optional delete, then the create. */
  function PrepareSteps(root: Path, clean: bool): seq<Effect>
  {
    (if clean then [RemovedTree(root)] else []) + [MadeDir(root)]
  }

  /** The opening of both scaffolders: delete the test directory when `clean` is set, then create it. */
  method Prepare(host: Host, testDir: Path, clean: bool)
    modifies host`disk, host`trace
    ensures host.disk == Prepared(old(host.disk), testDir, clean)
    ensures host.trace == old(host.trace) + PrepareSteps(testDir, clean)
  {
    if clean {
      DeleteEntireDir(host, testDir);
    }
    host.MakeDir(testDir);
  }

  // ----- Playwright -----

  /** The value of the initializer's `--lang` flag. */
  function LangOption(language: string): string
  {
    if language == "typescript" then "Typescript" else "js"
  }

  /** The non-interactive `npm init playwright` command, scaffolding into the working directory. */
  function PlaywrightInit(language: string): seq<string>
  {
    ["npm", "init", "playwright", "--", "--yes", "--quiet", "--install-deps",
     "--no-examples", "--browser=chromium", "--lang=" + LangOption(language), "."]
  }

  /** Installs the UUID library as a development dependency. */
  const AddUuid: seq<string> := ["npm", "install", "uuid", "--save-dev"]

  /** Every step `scaffold_playwright` takes, in order. */
  function PlaywrightSteps(root: Path, language: string, clean: bool): seq<Effect>
  {
    PrepareSteps(root, clean)
    + if language == "python" then []
      else [Ran(Command(PlaywrightInit(language), root)), Ran(Command(AddUuid, root))]
  }

  /** `scaffold_playwright(test_dir, language, clean)`; like the source, `clean` defaults to true. */
  method ScaffoldPlaywright(host: Host, testDir: Path, language: string, clean: bool := true)
    modifies host`disk, host`trace
    ensures host.disk == Prepared(old(host.disk), testDir, clean)
    ensures host.trace == old(host.trace) + PlaywrightSteps(testDir, language, clean)
  {
    Prepare(host, testDir, clean);
    if language == "python" {
      return;
    }
    host.Run(PlaywrightInit(language), testDir);
    host.Run(AddUuid, testDir);
  }

  // ----- Cypress -----

  /** The text of each file `scaffold_cypress` can write. */
  datatype Templates = Templates(
    packageJson: string, gitIgnore: string,
    cypressConfigTs: string, tsConfigJson: string, cypressConfigJs: string)

  /** The texts `scaffold_cypress` writes, character for character. */
  const CypressTemplates: Templates := Templates(
    "{\n  \"name\": \"agent-tests\",\n  \"version\": \"1.0.0\",\n  \"main\": \"index.js\",\n  \"scripts\": {\n  },\n  \"keywords\": [],\n  \"author\": \"\",\n  \"license\": \"ISC\",\n  \"devDependencies\": {\n    \"cypress\": \"latest\",\n    \"uuid\": \"latest\",\n    \"typescript\": \"latest\"\n  }\n}\n            ",
    "\nnode_modules/\n.cypress/\n            ",
    "import { defineConfig } from \'cypress\'\n\nexport default defineConfig({\n  defaultCommandTimeout: 10000,\n  e2e: {\n  \n  },\n})\n",
    "{\n  \"compilerOptions\": {\n    \"target\": \"es5\",\n    \"lib\": [\"es5\", \"dom\"],\n    \"types\": [\"cypress\", \"node\"]\n  },\n  \"include\": [\"**/*.ts\"]\n}\n",
    "const { defineConfig } = require(\'cypress\')\n\nmodule.exports = defineConfig({\n  defaultCommandTimeout: 10000,\n})\n")

  /** Installs every dependency `package.json` declares. */
  const NpmInstall: seq<string> := ["npm", "install"]

  /** The files `scaffold_cypress` writes for a language, by name, with texts from `tpl`. */
  function CypressFiles(language: string, tpl: Templates): Files
  {
    if language == "python" then map[]
    else if language == "typescript" then
      map["package.json" := tpl.packageJson, ".gitignore" := tpl.gitIgnore,
          "cypress.config.ts" := tpl.cypressConfigTs, "tsconfig.json" := tpl.tsConfigJson]
    else if language == "javascript" then
      map["package.json" := tpl.packageJson, ".gitignore" := tpl.gitIgnore,
          "cypress.config.js" := tpl.cypressConfigJs]
    else
      map["package.json" := tpl.packageJson, ".gitignore" := tpl.gitIgnore]
  }

  /** The writes `scaffold_cypress` makes into `root`, in order. */
  function CypressWrites(root: Path, language: string): seq<Effect>
  {
    [Wrote(root, "package.json"), Wrote(root, ".gitignore")]
    + (if language == "typescript"
       then [Wrote(root, "cypress.config.ts"), Wrote(root, "tsconfig.json")]
       else [])
    + (if language == "javascript" then [Wrote(root, "cypress.config.js")] else [])
  }

  /** Every step `scaffold_cypress` takes, in order. */
  function CypressSteps(root: Path, language: string, clean: bool): seq<Effect>
  {
    PrepareSteps(root, clean)
    + if language == "python" then []
      else CypressWrites(root, language) + [Ran(Command(NpmInstall, root))]
  }

  /** The files of the test directory once `scaffold_cypress` has written `tpl` over `files`, one write at a time. */
  function WriteTemplates(files: Files, language: string, tpl: Templates): Files
  {
    if language == "python" then files
    else
      var base := files["package.json" := tpl.packageJson][".gitignore" := tpl.gitIgnore];
      var typed := if language == "typescript"
                   then base["cypress.config.ts" := tpl.cypressConfigTs]["tsconfig.json" := tpl.tsConfigJson]
                   else base;
      if language == "javascript" then typed["cypress.config.js" := tpl.cypressConfigJs] else typed
  }

  /** The disk `scaffold_cypress` leaves: the prepared disk with the templates written into the test directory. */
  function CypressDisk(disk: Disk, root: Path, language: string, clean: bool, tpl: Templates): (r: Disk)
    ensures root in r
  {
    var d := Prepared(disk, root, clean);
    d[root := WriteTemplates(d[root], language, tpl)]
  }

  /** The writes of `scaffold_cypress` once the test directory exists, with the texts `tpl`. */
  method WriteCypressTemplates(host: Host, testDir: Path, language: string, tpl: Templates)
    requires language != "python"
    requires testDir in host.disk
    modifies host`disk, host`trace
    ensures host.disk == old(host.disk)[testDir := WriteTemplates(old(host.disk)[testDir], language, tpl)]
    ensures host.trace == old(host.trace) + CypressWrites(testDir, language)
  {
    WriteFilePair(host, testDir, "package.json", tpl.packageJson, ".gitignore", tpl.gitIgnore);
    if language == "typescript" {
      WriteFilePair(host, testDir, "cypress.config.ts", tpl.cypressConfigTs, "tsconfig.json", tpl.tsConfigJson);
    }
    if language == "javascript" {
      host.WriteFile(testDir, "cypress.config.js", tpl.cypressConfigJs);
    }
  }

  /** Two writes into `dir`, one after the other. */
  method WriteFilePair(host: Host, dir: Path, first: Name, firstText: string, second: Name, secondText: string)
    requires dir in host.disk
    modifies host`disk, host`trace
    ensures host.disk == old(host.disk)[dir := old(host.disk)[dir][first := firstText][second := secondText]]
    ensures host.trace == old(host.trace) + [Wrote(dir, first), Wrote(dir, second)]
  {
    host.WriteFile(dir, first, firstText);
    host.WriteFile(dir, second, secondText);
  }

  /** `scaffold_cypress(test_dir, language, clean)`; like the source, `clean` defaults to true. */
  method ScaffoldCypress(host: Host, testDir: Path, language: string, clean: bool := true)
    modifies host`disk, host`trace
    ensures host.disk == CypressDisk(old(host.disk), testDir, language, clean, CypressTemplates)
    ensures host.trace == old(host.trace) + CypressSteps(testDir, language, clean)
  {
    Prepare(host, testDir, clean);
    if language == "python" {
      assert host.disk[testDir := host.disk[testDir]] == host.disk;
      return;
    }
    ghost var steps := CypressWrites(testDir, language) + [Ran(Command(NpmInstall, testDir))];
    assert CypressSteps(testDir, language, clean) == PrepareSteps(testDir, clean) + steps;
    ghost var prepared := host.trace;
    WriteCypressTemplates(host, testDir, language, CypressTemplates);
    host.Run(NpmInstall, testDir);
    assert host.trace == prepared + steps;
  }

  // ----- What the scaffolders promise -----

  /** Writing the templates one by one leaves the old files overlaid with the template set. */
  lemma {:induction false} WriteTemplatesIsOverlay(files: Files, language: string, tpl: Templates)
    ensures WriteTemplates(files, language, tpl) == files + CypressFiles(language, tpl)
  {
    if language != "python" {
      assert files == files + map[];
      OverlayUpdate(files, map[], "package.json", tpl.packageJson);
      OverlayUpdate(files, map["package.json" := tpl.packageJson], ".gitignore", tpl.gitIgnore);
      var base := map["package.json" := tpl.packageJson, ".gitignore" := tpl.gitIgnore];
      if language == "typescript" {
        OverlayUpdate(files, base, "cypress.config.ts", tpl.cypressConfigTs);
        OverlayUpdate(files, base["cypress.config.ts" := tpl.cypressConfigTs], "tsconfig.json", tpl.tsConfigJson);
      } else if language == "javascript" {
        OverlayUpdate(files, base, "cypress.config.js", tpl.cypressConfigJs);
      }
    }
  }

  /** Writing one file over an overlay is overlaying the written file. */
  lemma OverlayUpdate(files: Files, over: Files, name: Name, text: string)
    ensures (files + over)[name := text] == files + over[name := text]
  {
  }

  /** With `clean`, the test directory is empty and nothing below it survives; the rest of the disk is untouched. */
  lemma CleanStartsEmpty(disk: Disk, root: Path)
    ensures Prepared(disk, root, true)[root] == map[]
    ensures forall p :: Below(p, root) ==> p !in Prepared(disk, root, true)
    ensures forall p :: !InTree(p, root) ==>
              (p in Prepared(disk, root, true) <==> p in disk)
              && (p in disk ==> Prepared(disk, root, true)[p] == disk[p])
  {
  }

  /** Without `clean`, an existing test directory keeps its files and nothing else changes. */
  lemma KeepPreservesDisk(disk: Disk, root: Path)
    ensures root in disk ==> Prepared(disk, root, false) == disk
    ensures root !in disk ==> Prepared(disk, root, false) == disk[root := map[]]
  {
  }

  /** For Python neither scaffolder writes a file or runs a command. */
  lemma PythonOnlyPrepares(disk: Disk, root: Path, clean: bool, tpl: Templates)
    ensures PlaywrightSteps(root, "python", clean) == PrepareSteps(root, clean)
    ensures CypressSteps(root, "python", clean) == PrepareSteps(root, clean)
    ensures CypressDisk(disk, root, "python", clean, tpl) == Prepared(disk, root, clean)
    ensures Commands(PrepareSteps(root, clean)) == []
    ensures WrittenIn(PrepareSteps(root, clean), root) == {}
  {
  }

  /** Playwright runs exactly two commands, both in the test directory: the initializer, then the UUID install. */
  lemma PlaywrightCommandOrder(root: Path, language: string, clean: bool)
    requires language != "python"
    ensures Commands(PlaywrightSteps(root, language, clean))
            == [Command(PlaywrightInit(language), root), Command(AddUuid, root)]
  {
    var pre := PrepareSteps(root, clean);
    var runs := [Ran(Command(PlaywrightInit(language), root)), Ran(Command(AddUuid, root))];
    assert PlaywrightSteps(root, language, clean) == pre + runs;
    NoCommands(pre);
    CommandsAppend(pre, runs);
    assert Commands(runs) == [runs[0].command] + Commands(runs[1..]);
  }

  /** The initializer's language flag is `--lang=Typescript` exactly for TypeScript, and `--lang=js` otherwise. */
  lemma PlaywrightLangFlag(language: string)
    ensures PlaywrightInit(language)[9] == "--lang=Typescript" <==> language == "typescript"
    ensures language != "typescript" ==> PlaywrightInit(language)[9] == "--lang=js"
  {
  }

  /** The names Cypress writes are exactly the keys of its template set, and each holds its template. */
  lemma CypressFileSets(language: string, tpl: Templates)
    ensures language == "typescript" ==>
              CypressFiles(language, tpl).Keys == {"package.json", ".gitignore", "cypress.config.ts", "tsconfig.json"}
              && CypressFiles(language, tpl)["cypress.config.ts"] == tpl.cypressConfigTs
              && CypressFiles(language, tpl)["tsconfig.json"] == tpl.tsConfigJson
    ensures language == "javascript" ==>
              CypressFiles(language, tpl).Keys == {"package.json", ".gitignore", "cypress.config.js"}
              && CypressFiles(language, tpl)["cypress.config.js"] == tpl.cypressConfigJs
    ensures language !in {"python", "typescript", "javascript"} ==>
              CypressFiles(language, tpl).Keys == {"package.json", ".gitignore"}
    ensures language != "python" ==>
              CypressFiles(language, tpl)["package.json"] == tpl.packageJson
              && CypressFiles(language, tpl)[".gitignore"] == tpl.gitIgnore
    ensures language == "python" ==> CypressFiles(language, tpl) == map[]
  {
  }

  /** The trace's writes into the test directory name exactly the files the resulting directory gets from the templates. */
  lemma CypressWritesMatchFiles(root: Path, language: string, clean: bool, tpl: Templates)
    ensures WrittenIn(CypressSteps(root, language, clean), root) == CypressFiles(language, tpl).Keys
  {
    var pre := PrepareSteps(root, clean);
    var steps := CypressSteps(root, language, clean);
    assert forall e :: e in pre ==> !e.Wrote?;
    if language == "python" {
      assert steps == pre;
    } else {
      var writes := CypressWrites(root, language);
      assert steps == pre + writes + [Ran(Command(NpmInstall, root))];
      forall n
        ensures Wrote(root, n) in steps <==> Wrote(root, n) in writes
      {
        assert Wrote(root, n) in steps <==> Wrote(root, n) in pre || Wrote(root, n) in writes;
      }
      WritesNameTemplates(root, language, tpl);
    }
  }

  /** The names in `scaffold_cypress`'s writes are the names of its template set. */
  lemma WritesNameTemplates(root: Path, language: string, tpl: Templates)
    requires language != "python"
    ensures forall n :: Wrote(root, n) in CypressWrites(root, language) <==> n in CypressFiles(language, tpl)
  {
  }

  /** Cypress runs one command, `npm install` in the test directory, as its last step and after every write. */
  lemma CypressInstallsLast(root: Path, language: string, clean: bool)
    requires language != "python"
    ensures var steps := CypressSteps(root, language, clean);
            && Commands(steps) == [Command(NpmInstall, root)]
            && steps[|steps| - 1] == Ran(Command(NpmInstall, root))
            && forall i :: 0 <= i < |steps| - 1 ==> !steps[i].Ran?
  {
    var pre := PrepareSteps(root, clean);
    var writes := CypressWrites(root, language);
    var install := [Ran(Command(NpmInstall, root))];
    var steps := pre + writes + install;
    assert CypressSteps(root, language, clean) == steps;
    assert forall i :: 0 <= i < |pre| ==> !pre[i].Ran?;
    assert forall i :: 0 <= i < |writes| ==> writes[i].Wrote?;
    forall i | 0 <= i < |steps| - 1
      ensures !steps[i].Ran?
    {
      if i < |pre| {
        assert steps[i] == pre[i];
      } else {
        assert steps[i] == writes[i - |pre|];
      }
    }
    NoCommands(pre);
    NoCommands(writes);
    CommandsAppend(pre, writes);
    CommandsAppend(pre + writes, install);
  }

  /**
   * With `clean`, both scaffolders delete before anything else, and Cypress's
   * test directory then holds exactly the templates, nothing from before.
   */
  lemma CleanDeletesFirst(disk: Disk, root: Path, language: string, tpl: Templates)
    ensures PlaywrightSteps(root, language, true)[0] == RemovedTree(root)
    ensures CypressSteps(root, language, true)[0] == RemovedTree(root)
    ensures forall i :: 0 <= i < |CypressSteps(root, language, true)| && CypressSteps(root, language, true)[i].Wrote? ==> i > 1
    ensures CypressDisk(disk, root, language, true, tpl)[root] == CypressFiles(language, tpl)
  {
    CleanStartsEmpty(disk, root);
    WriteTemplatesIsOverlay(map[], language, tpl);
    assert map[] + CypressFiles(language, tpl) == CypressFiles(language, tpl);
  }

  /**
   * Each Cypress write replaces a file of the same name and nothing else:
   * every other file of the prepared test directory, and every other directory, is unchanged.
   */
  lemma CypressKeepsOtherFiles(disk: Disk, root: Path, language: string, clean: bool, tpl: Templates)
    ensures var before := Prepared(disk, root, clean)[root];
            var after := CypressDisk(disk, root, language, clean, tpl)[root];
            && after.Keys == before.Keys + CypressFiles(language, tpl).Keys
            && (forall n :: n in CypressFiles(language, tpl) ==> after[n] == CypressFiles(language, tpl)[n])
            && (forall n :: n in before && n !in CypressFiles(language, tpl) ==> after[n] == before[n])
    ensures forall p :: p != root ==>
              (p in CypressDisk(disk, root, language, clean, tpl) <==> p in Prepared(disk, root, clean))
              && (p in Prepared(disk, root, clean) ==>
                    CypressDisk(disk, root, language, clean, tpl)[p] == Prepared(disk, root, clean)[p])
    ensures !clean && root in disk ==>
              forall n :: n in disk[root] && n !in CypressFiles(language, tpl) ==>
                n in CypressDisk(disk, root, language, clean, tpl)[root]
                && CypressDisk(disk, root, language, clean, tpl)[root][n] == disk[root][n]
  {
  }
}
