/**
 * `AppHelper`: the GUID format normalisation of `GenerateGuid` and the
 * registry layout written by `AssociateExtensionWithApp`.
 */
module AppHelper {

  /** The formats `Guid.ToString` is given without change. */
  const AllowedFormats: set<string> := {"N", "D", "B", "P", "X"}

  /** The default argument of `GenerateGuid`. */
  const DefaultFormat: string := "N"

  /** The `switch` in `GenerateGuid`: an allowed format passes, anything else becomes "N". */
  function NormalizeGuidFormat(format: string): (f: string)
    ensures f in AllowedFormats
    ensures format in AllowedFormats ==> f == format
    ensures format !in AllowedFormats ==> f == DefaultFormat
  {
    if format == "N" || format == "D" || format == "B" || format == "P" || format == "X" then format
    else "N"
  }

  /** Normalising twice is normalising once, and the default normalises to itself. */
  lemma NormalizeIdempotent(format: string)
    ensures NormalizeGuidFormat(NormalizeGuidFormat(format)) == NormalizeGuidFormat(format)
    ensures NormalizeGuidFormat(DefaultFormat) == DefaultFormat
  {
  }

  /** The registry key that `Registry.CurrentUser.OpenSubKey` opens first. */
  const ClassesRoot: string := "Software\\Classes"

  /** A registry value: the key it sits under and its name ("" is the key's default value). */
  datatype ValueRef = ValueRef(key: string, name: string)

  /** The path of sub-key `sub` of `key`. */
  function SubKey(key: string, sub: string): string {
    key + "\\" + sub
  }

  /** The ProgID `AssociateExtensionWithApp` creates for an extension. */
  function ProgId(extension: string): string {
    extension + "_auto_file"
  }

  /** The command line registered as the Open verb: the quoted path and the quoted "%1" placeholder. */
  function OpenCommand(pathToApp: string): (cmd: string)
    ensures |cmd| == |pathToApp| + 7
    ensures cmd[0] == '"' && cmd[1..|pathToApp| + 1] == pathToApp && cmd[|pathToApp| + 1..] == "\" \"%1\""
  {
    "\"" + pathToApp + "\" \"%1\""
  }

  /** The keys the `open` block creates: the Open verb, its command, and its DDE topic. */
  function OpenKeys(open: string): set<string> {
    {open, SubKey(open, "Command"), SubKey(open, "ddeexec"), SubKey(SubKey(open, "ddeexec"), "Topic")}
  }

  /** The default values the `open` block sets. */
  function OpenValues(open: string, pathToApp: string): map<ValueRef, string> {
    map[]
      [ValueRef(SubKey(open, "Command"), "") := OpenCommand(pathToApp)]
      [ValueRef(SubKey(SubKey(open, "ddeexec"), "Topic"), "") := "System"]
  }

  /** The keys the `shell` block creates. */
  function ShellKeys(shell: string): set<string> {
    {shell} + OpenKeys(SubKey(shell, "Open"))
  }

  /** The default values the `shell` block sets: the default verb first. */
  function ShellValues(shell: string, pathToApp: string): map<ValueRef, string> {
    map[ValueRef(shell, "") := "Open"] + OpenValues(SubKey(shell, "Open"), pathToApp)
  }

  /** The keys the `auto_file` block creates under a ProgID key. */
  function ProgIdKeys(prog: string): set<string> {
    {prog, SubKey(prog, "DefaultIcon")} + ShellKeys(SubKey(prog, "Shell"))
  }

  /** The default values the `auto_file` block sets: the icon first. */
  function ProgIdValues(prog: string, pathToApp: string): map<ValueRef, string> {
    map[ValueRef(SubKey(prog, "DefaultIcon"), "") := pathToApp + ",0"] + ShellValues(SubKey(prog, "Shell"), pathToApp)
  }

  /** The keys `AssociateExtensionWithApp` creates under the classes root. */
  function AssociationKeys(extension: string): set<string> {
    {SubKey(ClassesRoot, "." + extension)} + ProgIdKeys(SubKey(ClassesRoot, ProgId(extension)))
  }

  /** The five default values `AssociateExtensionWithApp` sets, by key, later writes winning. */
  function AssociationValues(pathToApp: string, extension: string): map<ValueRef, string> {
    map[ValueRef(SubKey(ClassesRoot, "." + extension), "") := ProgId(extension)]
      + ProgIdValues(SubKey(ClassesRoot, ProgId(extension)), pathToApp)
  }

  /**
   * The values written form a working association: the `.ext` key names a
   * ProgID, and under that ProgID the default Shell verb is "Open" and the
   * Open verb's command runs the application on the file.
   */
  lemma AssociationResolves(pathToApp: string, extension: string)
    ensures var vals := AssociationValues(pathToApp, extension);
      var ext := ValueRef(SubKey(ClassesRoot, "." + extension), "");
      ext in vals &&
      var prog := SubKey(ClassesRoot, vals[ext]);
      ValueRef(SubKey(prog, "Shell"), "") in vals &&
      var verb := vals[ValueRef(SubKey(prog, "Shell"), "")];
      ValueRef(SubKey(SubKey(SubKey(prog, "Shell"), verb), "Command"), "") in vals &&
      vals[ValueRef(SubKey(SubKey(SubKey(prog, "Shell"), verb), "Command"), "")] == OpenCommand(pathToApp)
  {
  }

  /** Every value written sits under a key that is created. */
  lemma AssociationValuesUnderCreatedKeys(pathToApp: string, extension: string)
    ensures forall v :: v in AssociationValues(pathToApp, extension) ==> v.key in AssociationKeys(extension)
  {
    ProgIdValuesUnderKeys(SubKey(ClassesRoot, ProgId(extension)), pathToApp);
  }

  lemma OpenValuesUnderKeys(open: string, pathToApp: string)
    ensures forall v :: v in OpenValues(open, pathToApp) ==> v.key in OpenKeys(open)
  {
  }

  lemma ShellValuesUnderKeys(shell: string, pathToApp: string)
    ensures forall v :: v in ShellValues(shell, pathToApp) ==> v.key in ShellKeys(shell)
  {
    OpenValuesUnderKeys(SubKey(shell, "Open"), pathToApp);
  }

  lemma ProgIdValuesUnderKeys(prog: string, pathToApp: string)
    ensures forall v :: v in ProgIdValues(prog, pathToApp) ==> v.key in ProgIdKeys(prog)
  {
    ShellValuesUnderKeys(SubKey(prog, "Shell"), pathToApp);
  }

  /** Writing into a merged map is writing into the map merged on top. */
  lemma MergeUpdate<K, V>(m: map<K, V>, n: map<K, V>, k: K, v: V)
    ensures (m + n)[k := v] == m + n[k := v]
  {
  }

  /** Writing one entry is merging a one-entry map on top. */
  lemma UpdateIsMerge<K, V>(m: map<K, V>, k: K, v: V)
    ensures m[k := v] == m + map[k := v]
  {
  }

  /** Merging maps one after another is merging their merge. */
  lemma MergeAssoc<K, V>(m: map<K, V>, n: map<K, V>, o: map<K, V>)
    ensures (m + n) + o == m + (n + o)
  {
  }

  /** The part of the current user's registry hive that the model touches. */
  class RegistryHive {
    var keys: set<string>
    var values: map<ValueRef, string>

    constructor (keys: set<string>, values: map<ValueRef, string>)
      ensures this.keys == keys && this.values == values
    {
      this.keys := keys;
      this.values := values;
    }

    /** `RegistryKey.CreateSubKey` followed by `SetValue(string.Empty, value)`. */
    method SetDefault(key: string, value: string)
      modifies this
      ensures keys == old(keys) + {key}
      ensures values == old(values)[ValueRef(key, "") := value]
    {
      keys := keys + {key};
      values := values[ValueRef(key, "") := value];
    }

    /** `RegistryKey.CreateSubKey` without a value. */
    method CreateKey(key: string)
      modifies this
      ensures keys == old(keys) + {key} && values == old(values)
    {
      keys := keys + {key};
    }

    /**
     * `AssociateExtensionWithApp(pathToApp, extension)`: nothing when the
     * classes root cannot be opened; otherwise the keys and default values
     * of the association, over whatever was there before.
     */
    method AssociateExtensionWithApp(pathToApp: string, extension: string)
      modifies this
      ensures ClassesRoot !in old(keys) ==> keys == old(keys) && values == old(values)
      ensures ClassesRoot in old(keys) ==>
        keys == old(keys) + AssociationKeys(extension) &&
        values == old(values) + AssociationValues(pathToApp, extension)
    {
      if ClassesRoot !in keys {
        return;
      }
      var ext := SubKey(ClassesRoot, "." + extension);
      SetDefault(ext, ProgId(extension));
      WriteProgId(SubKey(ClassesRoot, ProgId(extension)), pathToApp);
      UpdateIsMerge(old(values), ValueRef(ext, ""), ProgId(extension));
      MergeAssoc(old(values), map[ValueRef(ext, "") := ProgId(extension)], ProgIdValues(SubKey(ClassesRoot, ProgId(extension)), pathToApp));
    }

    /** The `auto_file` block: the ProgID key, its icon, and its Shell block. */
    method WriteProgId(prog: string, pathToApp: string)
      modifies this
      ensures keys == old(keys) + ProgIdKeys(prog)
      ensures values == old(values) + ProgIdValues(prog, pathToApp)
    {
      CreateKey(prog);
      var icon := SubKey(prog, "DefaultIcon");
      SetDefault(icon, pathToApp + ",0");
      WriteShell(SubKey(prog, "Shell"), pathToApp);
      UpdateIsMerge(old(values), ValueRef(icon, ""), pathToApp + ",0");
      MergeAssoc(old(values), map[ValueRef(icon, "") := pathToApp + ",0"], ShellValues(SubKey(prog, "Shell"), pathToApp));
    }

    /** The `shell` block: "Open" as the default verb, then the Open block. */
    method WriteShell(shell: string, pathToApp: string)
      modifies this
      ensures keys == old(keys) + ShellKeys(shell)
      ensures values == old(values) + ShellValues(shell, pathToApp)
    {
      SetDefault(shell, "Open");
      WriteOpenVerb(SubKey(shell, "Open"), pathToApp);
      UpdateIsMerge(old(values), ValueRef(shell, ""), "Open");
      MergeAssoc(old(values), map[ValueRef(shell, "") := "Open"], OpenValues(SubKey(shell, "Open"), pathToApp));
    }

    /** The `open` block: the command line and the DDE topic. */
    method WriteOpenVerb(open: string, pathToApp: string)
      modifies this
      ensures keys == old(keys) + OpenKeys(open)
      ensures values == old(values) + OpenValues(open, pathToApp)
    {
      CreateKey(open);
      var command := SubKey(open, "Command");
      SetDefault(command, OpenCommand(pathToApp));
      CreateKey(SubKey(open, "ddeexec"));
      SetDefault(SubKey(SubKey(open, "ddeexec"), "Topic"), "System");
      MergeUpdate(old(values), map[][ValueRef(command, "") := OpenCommand(pathToApp)],
        ValueRef(SubKey(SubKey(open, "ddeexec"), "Topic"), ""), "System");
    }
  }
}
