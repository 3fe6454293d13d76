/** The preset table the second-generation wizard builds its menu from
    (vscode_sync/presets.py; cli/vscode_sync/presets.py is an identical copy).
    The dict's insertion order is kept as the order of a sequence. */
module PresetTable {
  import opened Text
  import opened Json

  datatype Preset = Preset(name: string, extensions: seq<string>, settings: map<string, Json>)

  const Presets: seq<Preset> := [
    Preset("Frontend", FrontendExtensions,
      map["editor.formatOnSave" := JBool(true), "files.autoSave" := JString("afterDelay")]),
    Preset("Backend", BackendExtensions,
      map["editor.formatOnSave" := JBool(true), "python.linting.enabled" := JBool(true)]),
    Preset("Full-stack", FullStackExtensions,
      map["editor.formatOnSave" := JBool(true)]),
    Preset("Data Science", DataScienceExtensions,
      map["python.dataScience.sendSelectionToInteractiveWindow" := JBool(true)]),
    Preset("Mobile", MobileExtensions,
      map["editor.formatOnSave" := JBool(true)])
  ]

  const FrontendExtensions: seq<string> := [
    "dbaeumer.vscode-eslint", "esbenp.prettier-vscode", "msjsdiag.debugger-for-chrome",
    "formulahendry.auto-close-tag", "formulahendry.auto-rename-tag", "eamodio.gitlens"]

  const BackendExtensions: seq<string> := [
    "ms-python.python", "ms-python.vscode-pylance", "ms-azuretools.vscode-docker",
    "ms-vscode.vscode-typescript-next", "eamodio.gitlens"]

  const FullStackExtensions: seq<string> := [
    "dbaeumer.vscode-eslint", "esbenp.prettier-vscode", "ms-python.python",
    "ms-python.vscode-pylance", "msjsdiag.debugger-for-chrome", "eamodio.gitlens"]

  const DataScienceExtensions: seq<string> := [
    "ms-python.python", "ms-toolsai.jupyter", "ms-toolsai.jupyter-keymap",
    "ms-toolsai.jupyter-renderers", "ms-toolsai.vscode-jupyter-cell-tags",
    "ms-toolsai.vscode-jupyter-slideshow"]

  const MobileExtensions: seq<string> := [
    "Dart-Code.dart-code", "Dart-Code.flutter", "msjsdiag.debugger-for-chrome"]

  /** list(PRESETS.keys()) */
  function Names(ps: seq<Preset>): (names: seq<string>)
    ensures |names| == |ps|
    ensures forall i :: 0 <= i < |ps| ==> names[i] == ps[i].name
  {
    if ps == [] then [] else [ps[0].name] + Names(ps[1..])
  }

  /** PRESETS[name], None where the key is absent. */
  function Lookup(ps: seq<Preset>, name: string): (r: Option<Preset>)
    ensures r.Some? ==> r.value in ps && r.value.name == name
    ensures r.None? ==> name !in Names(ps)
  {
    if ps == [] then None
    else if ps[0].name == name then Some(ps[0])
    else Lookup(ps[1..], name)
  }

  /** Five presets in the order that numbers the menu. */
  lemma PresetOrder()
    ensures Names(Presets) == ["Frontend", "Backend", "Full-stack", "Data Science", "Mobile"]
  {
    var names := Names(Presets);
    assert |names| == 5;
    assert names[0] == "Frontend" && names[1] == "Backend" && names[2] == "Full-stack";
    assert names[3] == "Data Science" && names[4] == "Mobile";
  }

  /** No two presets share a name, and no preset lists an extension twice. */
  lemma PresetsDuplicateFree()
    ensures NoDup(Names(Presets))
    ensures forall k :: 0 <= k < |Presets| ==> NoDup(Presets[k].extensions)
  {
    PresetOrder();
    MenuNamesDuplicateFree(["Frontend", "Backend", "Full-stack", "Data Science", "Mobile"]);
    ExtensionListsDuplicateFree();
    assert Presets[0].extensions == FrontendExtensions;
    assert Presets[1].extensions == BackendExtensions;
    assert Presets[2].extensions == FullStackExtensions;
    assert Presets[3].extensions == DataScienceExtensions;
    assert Presets[4].extensions == MobileExtensions;
  }

  /** The five names have five different lengths. */
  lemma MenuNamesDuplicateFree(names: seq<string>)
    requires names == ["Frontend", "Backend", "Full-stack", "Data Science", "Mobile"]
    ensures NoDup(names)
  {
    assert |names[0]| == 8 && |names[1]| == 7 && |names[2]| == 10 && |names[3]| == 12 && |names[4]| == 6;
  }

  lemma ExtensionListsDuplicateFree()
    ensures NoDup(FrontendExtensions) && NoDup(BackendExtensions) && NoDup(FullStackExtensions)
    ensures NoDup(DataScienceExtensions) && NoDup(MobileExtensions)
  {
    FrontendDuplicateFree();
    BackendDuplicateFree();
    FullStackDuplicateFree();
    DataScienceDuplicateFree();
    MobileDuplicateFree();
  }

  lemma FrontendDuplicateFree() ensures NoDup(FrontendExtensions) {}
  lemma BackendDuplicateFree() ensures NoDup(BackendExtensions) {}
  lemma FullStackDuplicateFree() ensures NoDup(FullStackExtensions) {}
  lemma DataScienceDuplicateFree() ensures NoDup(DataScienceExtensions) {}
  lemma MobileDuplicateFree() ensures NoDup(MobileExtensions) {}

  /** With unique names, looking a menu entry up by name finds that entry. */
  lemma {:induction false} LookupFindsEntry(ps: seq<Preset>, k: nat)
    requires k < |ps| && NoDup(Names(ps))
    ensures Lookup(ps, ps[k].name) == Some(ps[k])
  {
    if k > 0 {
      assert Names(ps)[0] != Names(ps)[k];
      assert Names(ps[1..]) == Names(ps)[1..];
      LookupFindsEntry(ps[1..], k - 1);
    }
  }
}
