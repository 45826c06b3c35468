/** Reading the device identity from the host's variables and rewriting the
    hardware type into the name the firmware catalog uses. */
module Device {
  import opened FirmwareTypes
  import opened Strings

  const BoardVariable := "ansible_board"
  const HardwareTypeVariable := "ansible_hardware_type"
  const QemuBoardType := "qemu-standard-pc-i440fx-piix-1996"

  /** The two device facts, looked up and checked in the order the lookup
      does it: a fact missing from the variables is a KeyError, an empty one
      is the lookup's own error. Yields the raw (board, boardtype) pair. */
  function ReadDevice(variables: map<string, string>): (r: Result<(string, string), Error>)
    ensures r.Success? <==>
      BoardVariable in variables && variables[BoardVariable] != "" &&
      HardwareTypeVariable in variables && variables[HardwareTypeVariable] != ""
    ensures r.Success? ==> r.value == (variables[BoardVariable], variables[HardwareTypeVariable])
    ensures BoardVariable in variables && variables[BoardVariable] == "" ==> r == Failure(NoBoard)
    ensures (BoardVariable in variables && variables[BoardVariable] != "" &&
      HardwareTypeVariable in variables && variables[HardwareTypeVariable] == "") ==> r == Failure(NoHardwareType)
  {
    if BoardVariable !in variables then Failure(MissingVariable(BoardVariable))
    else if variables[BoardVariable] == "" then Failure(NoBoard)
    else if HardwareTypeVariable !in variables then Failure(MissingVariable(HardwareTypeVariable))
    else if variables[HardwareTypeVariable] == "" then Failure(NoHardwareType)
    else Success((variables[BoardVariable], variables[HardwareTypeVariable]))
  }

  /** The three rewrites, each tested on the result of the one before. */
  function NormalizeBoardType(raw: string): (r: string)
    ensures StartsWith(raw, "cpe") ==> r == "tplink," + raw
    ensures StartsWith(raw, "rocket-m-xw") ==> r == "ubnt-" + raw
    ensures raw == QemuBoardType ==> r == "generic"
    ensures !StartsWith(raw, "cpe") && !StartsWith(raw, "rocket-m-xw") && raw != QemuBoardType ==> r == raw
  {
    assert StartsWith(raw, "rocket-m-xw") ==> raw[0] == 'r';
    assert raw == QemuBoardType ==> raw[0] == 'q' && raw[..3] != "cpe" && raw[..11] != "rocket-m-xw";
    var afterTplink := if StartsWith(raw, "cpe") then "tplink," + raw else raw;
    assert StartsWith(raw, "cpe") ==> afterTplink[0] == 't';
    var afterUbnt := if StartsWith(afterTplink, "rocket-m-xw") then "ubnt-" + afterTplink else afterTplink;
    assert StartsWith(afterTplink, "rocket-m-xw") ==> afterUbnt[0] == 'u';
    if afterUbnt == QemuBoardType then "generic" else afterUbnt
  }
}
