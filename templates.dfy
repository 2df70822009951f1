/**
  * The two control artifacts the installer writes on hosts other than
  * Windows, as fixed templates: the LSB init script used when there is no
  * systemd unit directory, and the systemd unit used when there is one.
  *
  * Each template line is held as its literal text with the placeholder
  * tokens between (`LineText` gives the line exactly as written in the
  * source). The literal pieces carry, in their types, the facts the proofs
  * about rendering rely on, so that every line of both templates is checked
  * once, where it is written.
  */
module Templates {

  /** The placeholder tokens, `##NAME##` and so on. */
  datatype Token =
    | Name | NodePath | NodeArgs | ProgramPath | ProgramArgs
    | RunLevelsArr | RunLevelsStr | Dependencies | SystemdWantedBy

  predicate IsUpper(c: char) {
    'A' <= c <= 'Z'
  }

  /** The characters a token's name is made of. */
  predicate NameChar(c: char) {
    IsUpper(c) || c == '_'
  }

  /**
    * The word between the `##` brackets of a token: it starts with an
    * upper-case letter and holds only upper-case letters and underscores.
    */
  function TokenName(t: Token): (r: string)
    ensures |r| > 0 && IsUpper(r[0])
    ensures forall i | 0 <= i < |r| :: NameChar(r[i])
  {
    match t
    case Name => "NAME"
    case NodePath => "NODE_PATH"
    case NodeArgs => "NODE_ARGS"
    case ProgramPath => "PROGRAM_PATH"
    case ProgramArgs => "PROGRAM_ARGS"
    case RunLevelsArr => "RUN_LEVELS_ARR"
    case RunLevelsStr => "RUN_LEVELS_STR"
    case Dependencies => "DEPENDENCIES"
    case SystemdWantedBy => "SYSTEMD_WANTED_BY"
  }

  /** No two tokens share a name. */
  lemma TokenNameInjective(t: Token, u: Token)
    ensures t != u ==> TokenName(t) != TokenName(u)
  {
    if t != u {
      assert TokenName(t)[..3] != TokenName(u)[..3] || |TokenName(t)| != |TokenName(u)|
        || TokenName(t)[|TokenName(t)| - 3..] != TokenName(u)[|TokenName(u)| - 3..];
    }
  }

  /** The placeholder text of a token as it appears in a template. */
  function Placeholder(t: Token): string {
    "##" + TokenName(t) + "##"
  }

  /** A placeholder could start at index `i` of `s`: two `#` and an upper-case letter. */
  predicate MarkerAt(s: string, i: int) {
    0 <= i && i + 2 < |s| && s[i] == '#' && s[i + 1] == '#' && IsUpper(s[i + 2])
  }

  /** `s` holds no line break and no position where a placeholder could start. */
  predicate Inert(s: string) {
    forall i | 0 <= i < |s| :: s[i] != '\n' && !MarkerAt(s, i)
  }

  predicate EndsWithHash(s: string) {
    |s| > 0 && s[|s| - 1] == '#'
  }

  /** `s` is empty or starts with a character that cannot extend a `#` before it into a placeholder start. */
  predicate SafeStart(s: string) {
    |s| == 0 || (s[0] != '#' && !IsUpper(s[0]))
  }

  /** The literal text at the start of a line. */
  type Head = s: string | Inert(s) && !EndsWithHash(s) witness ""

  /** The literal text after a placeholder. */
  type Gap = s: string | Inert(s) && !EndsWithHash(s) && SafeStart(s) witness ""

  /** A placeholder in a template line, with the literal text that follows it. */
  datatype Slot = Slot(token: Token, after: Gap)

  /** A template line: literal text `head`, then each slot's placeholder and the text after it. */
  datatype Line = Line(head: Head, slots: seq<Slot>)

  /**
    * Two placeholders of a line are never adjacent, and no placeholder
    * occurs twice in a line.
    */
  predicate Spaced(slots: seq<Slot>) {
    && (forall k | 0 <= k < |slots| - 1 :: slots[k].after != "")
    && (forall k, m | 0 <= k < m < |slots| :: slots[k].token != slots[m].token)
  }

  type TemplateLine = l: Line | Spaced(l.slots) witness Line("", [])

  /** Token `t` has a placeholder in line `l`. */
  predicate Mentions(l: Line, t: Token) {
    exists k | 0 <= k < |l.slots| :: l.slots[k].token == t
  }

  /** The init script has no systemd target placeholder. */
  type InitLine = l: TemplateLine | !Mentions(l, SystemdWantedBy) witness Line("", [])

  /** The systemd unit has no run-level placeholders. */
  type UnitLine = l: TemplateLine | !Mentions(l, RunLevelsArr) && !Mentions(l, RunLevelsStr) witness Line("", [])

  /** Literal text written in pieces: joining two such pieces makes no line break and no placeholder start. */
  function Cat(a: Head, b: Head): (r: Head)
    ensures r == a + b
  {
    assert forall i | 0 <= i < |a + b| :: (a + b)[i] != '\n' && !MarkerAt(a + b, i) by {
      forall i | 0 <= i < |a + b|
        ensures (a + b)[i] != '\n' && !MarkerAt(a + b, i)
      {
        if i + 2 < |a| {
          assert (a + b)[i..i + 3] == a[i..i + 3];
          assert !MarkerAt(a, i);
        } else if i < |a| {
          assert (a + b)[|a| - 1] == a[|a| - 1] != '#';
        } else {
          assert (a + b)[i..] == b[i - |a|..];
          assert !MarkerAt(b, i - |a|);
        }
      }
    }
    a + b
  }

  /** A line without placeholders. */
  function Plain(text: Head): TemplateLine {
    Line(text, [])
  }

  /** A line with placeholders. */
  function Holes(head: Head, slots: seq<Slot>): TemplateLine
    requires Spaced(slots)
  {
    Line(head, slots)
  }

  /** The line as written in the source. */
  function LineText(l: Line): string {
    l.head + SlotsText(l.slots)
  }

  function SlotsText(slots: seq<Slot>): string
    decreases |slots|
  {
    if |slots| == 0 then "" else Placeholder(slots[0].token) + slots[0].after + SlotsText(slots[1..])
  }


  const Piece11_1: Head := "#!/bin"
  const Piece11_2: Head := "/bash"
  const Piece13_1: Head := "### BEGIN "
  const Piece13_2: Head := "INIT INFO"

  /** Part of the init script, index.js lines 11-13. */
  const InitScript1: seq<InitLine> := [
    Plain(Cat(Piece11_1, Piece11_2)),
    Plain(""),
    Plain(Cat(Piece13_1, Piece13_2))
  ]

  const Piece14_1: Head := "# Provi"
  const Piece14_2: Head := "des:   "
  const Piece14_3: Head := "       "
  const Piece15_1: Head := "# Requi"
  const Piece15_2: Head := "red-Sta"
  const Piece15_3: Head := "rt:    "

  /** Part of the init script, index.js lines 14-15. */
  const InitScript2: seq<InitLine> := [
    Holes(Cat(Cat(Piece14_1, Piece14_2), Piece14_3), [Slot(Name, "")]),
    Holes(Cat(Cat(Piece15_1, Piece15_2), Piece15_3), [Slot(Dependencies, "")])
  ]

  const Piece16_1: Head := "# Requi"
  const Piece16_2: Head := "red-Sto"
  const Piece16_3: Head := "p:     "
  const Piece17_1: Head := "# Defau"
  const Piece17_2: Head := "lt-Star"
  const Piece17_3: Head := "t:     "

  /** Part of the init script, index.js lines 16-17. */
  const InitScript3: seq<InitLine> := [
    Plain(Cat(Cat(Piece16_1, Piece16_2), Piece16_3)),
    Holes(Cat(Cat(Piece17_1, Piece17_2), Piece17_3), [Slot(RunLevelsArr, "")])
  ]

  const Piece18_1: Head := "# Default"
  const Piece18_2: Head := "-Stop:  "
  const Piece18_3: Head := "    0 1 6"
  const Piece19_1: Head := "# Short-D"
  const Piece19_2: Head := "escriptio"
  const Piece19_3: Head := "n: Start "
  const Piece19_4: Head := " at bo"
  const Piece19_5: Head := "ot time"

  /** Part of the init script, index.js lines 18-19. */
  const InitScript4: seq<InitLine> := [
    Plain(Cat(Cat(Piece18_1, Piece18_2), Piece18_3)),
    Holes(Cat(Cat(Piece19_1, Piece19_2), Piece19_3), [Slot(Name, Cat(Piece19_4, Piece19_5))])
  ]

  const Piece20_1: Head := "# Descrip"
  const Piece20_2: Head := "tion:     "
  const Piece20_3: Head := "  Enable "
  const Piece21_1: Head := "### END "
  const Piece21_2: Head := "INIT INFO"
  const Piece23_1: Head := "# chkcon"
  const Piece23_2: Head := "fig:   "

  /** Part of the init script, index.js lines 20-23. */
  const InitScript5: seq<InitLine> := [
    Holes(Cat(Cat(Piece20_1, Piece20_2), Piece20_3), [Slot(Name, " service.")]),
    Plain(Cat(Piece21_1, Piece21_2)),
    Plain(""),
    Holes(Cat(Piece23_1, Piece23_2), [Slot(RunLevelsStr, " 99 1")])
  ]

  const Piece24_1: Head := "# descri"
  const Piece24_2: Head := "ption: "
  const Piece28_1: Head := "set_pi"
  const Piece28_2: Head := "d () {"

  /** Part of the init script, index.js lines 24-28. */
  const InitScript6: seq<InitLine> := [
    Holes(Cat(Piece24_1, Piece24_2), [Slot(Name, "")]),
    Plain(""),
    Plain("umask 0007"),
    Plain(""),
    Plain(Cat(Piece28_1, Piece28_2))
  ]

  const Piece30_1: Head := "\t_PID=`h"
  const Piece30_2: Head := "ead -1 \""
  const Piece30_3: Head := ".pid\" 2>/"
  const Piece30_4: Head := "dev/null`"
  const Piece31_1: Head := "\tif [ $_PI"
  const Piece31_2: Head := "D ]; then"

  /** Part of the init script, index.js lines 29-31. */
  const InitScript7: seq<InitLine> := [
    Plain("\tunset PID"),
    Holes(Cat(Piece30_1, Piece30_2), [Slot(ProgramPath, Cat(Piece30_3, Piece30_4))]),
    Plain(Cat(Piece31_1, Piece31_2))
  ]

  const Piece32_1: Head := "\t\tkill -0 "
  const Piece32_2: Head := "$_PID 2>/d"
  const Piece32_3: Head := "ev/null &&"
  const Piece32_4: Head := " PID=$_PID"
  const Piece36_1: Head := "force_re"
  const Piece36_2: Head := "load () {"
  const Piece41_1: Head := "restar"
  const Piece41_2: Head := "t () {"

  /** Part of the init script, index.js lines 32-41. */
  const InitScript8: seq<InitLine> := [
    Plain(Cat(Cat(Cat(Piece32_1, Piece32_2), Piece32_3), Piece32_4)),
    Plain("\tfi"),
    Plain("}"),
    Plain(""),
    Plain(Cat(Piece36_1, Piece36_2)),
    Plain("\tstop"),
    Plain("\tstart"),
    Plain("}"),
    Plain(""),
    Plain(Cat(Piece41_1, Piece41_2))
  ]

  /** Part of the init script, index.js lines 42-44. */
  const InitScript9: seq<InitLine> := [
    Plain("\tstop"),
    Plain("\tstart"),
    Plain("}")
  ]

  /** Part of the init script, index.js lines 45-46. */
  const InitScript10: seq<InitLine> := [
    Plain(""),
    Plain("start () {")
  ]

  const Piece51_1: Head := "\tif [ -z"
  const Piece51_2: Head := " \"$PID\""
  const Piece51_3: Head := " ]; then"

  /** Part of the init script, index.js lines 47-51. */
  const InitScript11: seq<InitLine> := [
    Plain("\tCNT=5"),
    Plain(""),
    Plain("\tset_pid"),
    Plain(""),
    Plain(Cat(Cat(Piece51_1, Piece51_2), Piece51_3))
  ]

  const Piece52_1: Head := "\t\techo s"
  const Piece52_2: Head := "tarting "
  const Piece54_1: Head := " >/dev/nu"
  const Piece54_2: Head := "ll 2>&1 &"

  /** Part of the init script, index.js lines 52-54. */
  const InitScript12: seq<InitLine> := [
    Holes(Cat(Piece52_1, Piece52_2), [Slot(Name, "")]),
    Plain(""),
    Holes("\t\t\"", [Slot(NodePath, "\" "), Slot(NodeArgs, " \""), Slot(ProgramPath, "\" "), Slot(ProgramArgs, Cat(Piece54_1, Piece54_2))])
  ]

  const Piece56_1: Head := "\t\techo"
  const Piece56_2: Head := " $! > \""

  /** Part of the init script, index.js lines 55-56. */
  const InitScript13: seq<InitLine> := [
    Plain(""),
    Holes(Cat(Piece56_1, Piece56_2), [Slot(ProgramPath, ".pid\"")])
  ]

  const Piece58_1: Head := "\t\twhile "
  const Piece58_2: Head := "[ : ]; do"
  const Piece61_1: Head := "\t\t\tif [ "
  const Piece61_2: Head := "-n \"$PID\""
  const Piece61_3: Head := " ]; then"

  /** Part of the init script, index.js lines 57-61. */
  const InitScript14: seq<InitLine> := [
    Plain(""),
    Plain(Cat(Piece58_1, Piece58_2)),
    Plain("\t\t\tset_pid"),
    Plain(""),
    Plain(Cat(Cat(Piece61_1, Piece61_2), Piece61_3))
  ]

  const Piece62_1: Head := "\t\t\t\techo"
  const Piece62_2: Head := " started "
  const Piece65_1: Head := "\t\t\t\tif [ "
  const Piece65_2: Head := "$CNT -gt "
  const Piece65_3: Head := "0 ]; then"

  /** Part of the init script, index.js lines 62-65. */
  const InitScript15: seq<InitLine> := [
    Holes(Cat(Piece62_1, Piece62_2), [Slot(Name, "")]),
    Plain("\t\t\t\tbreak"),
    Plain("\t\t\telse"),
    Plain(Cat(Cat(Piece65_1, Piece65_2), Piece65_3))
  ]

  const Piece66_1: Head := "\t\t\t\t\ts"
  const Piece66_2: Head := "leep 1"
  const Piece67_1: Head := "\t\t\t\t\tCNT"
  const Piece67_2: Head := "=`expr $"
  const Piece67_3: Head := "CNT - 1`"

  /** Part of the init script, index.js lines 66-68. */
  const InitScript16: seq<InitLine> := [
    Plain(Cat(Piece66_1, Piece66_2)),
    Plain(Cat(Cat(Piece67_1, Piece67_2), Piece67_3)),
    Plain("\t\t\t\telse")
  ]

  const Piece69_1: Head := "\t\t\t\t\tech"
  const Piece69_2: Head := "o ERROR -"
  const Piece69_3: Head := " failed t"
  const Piece69_4: Head := "o start "

  /** Part of the init script, index.js lines 69-71. */
  const InitScript17: seq<InitLine> := [
    Holes(Cat(Cat(Cat(Piece69_1, Piece69_2), Piece69_3), Piece69_4), [Slot(Name, "")]),
    Plain("\t\t\t\t\tbreak"),
    Plain("\t\t\t\tfi")
  ]

  /** Part of the init script, index.js lines 72-73. */
  const InitScript18: seq<InitLine> := [
    Plain("\t\t\tfi"),
    Plain("\t\tdone")
  ]

  const Piece75_1: Head := " is alread"
  const Piece75_2: Head := "y started"

  /** Part of the init script, index.js lines 74-76. */
  const InitScript19: seq<InitLine> := [
    Plain("\telse"),
    Holes("\t\techo ", [Slot(Name, Cat(Piece75_1, Piece75_2))]),
    Plain("\tfi")
  ]

  /** Part of the init script, index.js lines 77-78. */
  const InitScript20: seq<InitLine> := [
    Plain("}"),
    Plain("")
  ]

  const Piece79_1: Head := "status"
  const Piece79_2: Head := " () {"
  const Piece82_1: Head := "\tif [ -z"
  const Piece82_2: Head := " \"$PID\""
  const Piece82_3: Head := " ]; then"

  /** Part of the init script, index.js lines 79-84. */
  const InitScript21: seq<InitLine> := [
    Plain(Cat(Piece79_1, Piece79_2)),
    Plain("\tset_pid"),
    Plain(""),
    Plain(Cat(Cat(Piece82_1, Piece82_2), Piece82_3)),
    Plain("\t\texit 1"),
    Plain("\telse")
  ]

  /** Part of the init script, index.js lines 85-88. */
  const InitScript22: seq<InitLine> := [
    Plain("\t\texit 0"),
    Plain("\tfi"),
    Plain("}"),
    Plain("")
  ]

  /** Part of the init script, index.js lines 89-91. */
  const InitScript23: seq<InitLine> := [
    Plain("stop () {"),
    Plain("\tCNT=5"),
    Plain("")
  ]

  const Piece94_1: Head := "\tif [ -n"
  const Piece94_2: Head := " \"$PID\""
  const Piece94_3: Head := " ]; then"
  const Piece95_1: Head := "\t\techo s"
  const Piece95_2: Head := "topping "
  const Piece97_1: Head := "\t\tkill"
  const Piece97_2: Head := " $PID"

  /** Part of the init script, index.js lines 92-97. */
  const InitScript24: seq<InitLine> := [
    Plain("\tset_pid"),
    Plain(""),
    Plain(Cat(Cat(Piece94_1, Piece94_2), Piece94_3)),
    Holes(Cat(Piece95_1, Piece95_2), [Slot(Name, "")]),
    Plain(""),
    Plain(Cat(Piece97_1, Piece97_2))
  ]

  const Piece99_1: Head := "\t\twhile "
  const Piece99_2: Head := "[ : ]; do"

  /** Part of the init script, index.js lines 98-100. */
  const InitScript25: seq<InitLine> := [
    Plain(""),
    Plain(Cat(Piece99_1, Piece99_2)),
    Plain("\t\t\tset_pid")
  ]

  const Piece102_1: Head := "\t\t\tif [ "
  const Piece102_2: Head := "-z \"$PID\""
  const Piece102_3: Head := " ]; then"

  /** Part of the init script, index.js lines 101-103. */
  const InitScript26: seq<InitLine> := [
    Plain(""),
    Plain(Cat(Cat(Piece102_1, Piece102_2), Piece102_3)),
    Holes("\t\t\t\trm \"", [Slot(ProgramPath, ".pid\"")])
  ]

  const Piece104_1: Head := "\t\t\t\techo"
  const Piece104_2: Head := " stopped "

  /** Part of the init script, index.js lines 104-106. */
  const InitScript27: seq<InitLine> := [
    Holes(Cat(Piece104_1, Piece104_2), [Slot(Name, "")]),
    Plain("\t\t\t\tbreak"),
    Plain("\t\t\telse")
  ]

  const Piece107_1: Head := "\t\t\t\tif [ "
  const Piece107_2: Head := "$CNT -gt "
  const Piece107_3: Head := "0 ]; then"
  const Piece108_1: Head := "\t\t\t\t\ts"
  const Piece108_2: Head := "leep 1"
  const Piece109_1: Head := "\t\t\t\t\tCNT"
  const Piece109_2: Head := "=`expr $"
  const Piece109_3: Head := "CNT - 1`"

  /** Part of the init script, index.js lines 107-110. */
  const InitScript28: seq<InitLine> := [
    Plain(Cat(Cat(Piece107_1, Piece107_2), Piece107_3)),
    Plain(Cat(Piece108_1, Piece108_2)),
    Plain(Cat(Cat(Piece109_1, Piece109_2), Piece109_3)),
    Plain("\t\t\t\telse")
  ]

  const Piece111_1: Head := "\t\t\t\t\tech"
  const Piece111_2: Head := "o ERROR "
  const Piece111_3: Head := "- failed "
  const Piece111_4: Head := "to stop "

  /** Part of the init script, index.js lines 111-113. */
  const InitScript29: seq<InitLine> := [
    Holes(Cat(Cat(Cat(Piece111_1, Piece111_2), Piece111_3), Piece111_4), [Slot(Name, "")]),
    Plain("\t\t\t\t\tbreak"),
    Plain("\t\t\t\tfi")
  ]

  /** Part of the init script, index.js lines 114-116. */
  const InitScript30: seq<InitLine> := [
    Plain("\t\t\tfi"),
    Plain("\t\tdone"),
    Plain("\telse")
  ]

  const Piece117_1: Head := " is alread"
  const Piece117_2: Head := "y stopped"

  /** Part of the init script, index.js lines 117-119. */
  const InitScript31: seq<InitLine> := [
    Holes("\t\techo ", [Slot(Name, Cat(Piece117_1, Piece117_2))]),
    Plain("\tfi"),
    Plain("}")
  ]

  const Piece122_1: Head := "\tforce-"
  const Piece122_2: Head := "reload)"

  /** Part of the init script, index.js lines 120-122. */
  const InitScript32: seq<InitLine> := [
    Plain(""),
    Plain("case $1 in"),
    Plain(Cat(Piece122_1, Piece122_2))
  ]

  const Piece123_1: Head := "\t\tforce"
  const Piece123_2: Head := "_reload"

  /** Part of the init script, index.js lines 123-126. */
  const InitScript33: seq<InitLine> := [
    Plain(Cat(Piece123_1, Piece123_2)),
    Plain("\t\t;;"),
    Plain("\trestart)"),
    Plain("\t\trestart")
  ]

  /** Part of the init script, index.js lines 127-130. */
  const InitScript34: seq<InitLine> := [
    Plain("\t\t;;"),
    Plain("\tstart)"),
    Plain("\t\tstart"),
    Plain("\t\t;;")
  ]

  /** Part of the init script, index.js lines 131-134. */
  const InitScript35: seq<InitLine> := [
    Plain("\tstatus)"),
    Plain("\t\tstatus"),
    Plain("\t\t;;"),
    Plain("\tstop)")
  ]

  /** Part of the init script, index.js lines 135-137. */
  const InitScript36: seq<InitLine> := [
    Plain("\t\tstop"),
    Plain("\t\t;;"),
    Plain("\t*)")
  ]

  const Piece138_1: Head := "\t\techo \"us"
  const Piece138_2: Head := "age: $0 <f"
  const Piece138_3: Head := "orce-reloa"
  const Piece138_4: Head := "d|restart"
  const Piece138_5: Head := "|start|sta"
  const Piece138_6: Head := "tus|stop>\""

  /** Part of the init script, index.js lines 138-141. */
  const InitScript37: seq<InitLine> := [
    Plain(Cat(Cat(Cat(Cat(Cat(Piece138_1, Piece138_2), Piece138_3), Piece138_4), Piece138_5), Piece138_6)),
    Plain("\t\texit 1"),
    Plain("\t\t;;"),
    Plain("esac")
  ]

  const Piece146_1: Head := "Descri"
  const Piece146_2: Head := "ption="
  const Piece147_1: Head := "After=netw"
  const Piece147_2: Head := "ork.target"

  /** Part of the systemd unit, index.js lines 145-148. */
  const SystemUnit1: seq<UnitLine> := [
    Plain("[Unit]"),
    Holes(Cat(Piece146_1, Piece146_2), [Slot(Name, "")]),
    Plain(Cat(Piece147_1, Piece147_2)),
    Holes("Requires=", [Slot(Dependencies, "")])
  ]

  const Piece151_1: Head := "Type=s"
  const Piece151_2: Head := "imple"

  /** Part of the systemd unit, index.js lines 149-151. */
  const SystemUnit2: seq<UnitLine> := [
    Plain(""),
    Plain("[Service]"),
    Plain(Cat(Piece151_1, Piece151_2))
  ]

  const Piece152_1: Head := "StandardOu"
  const Piece152_2: Head := "tput=null"
  const Piece153_1: Head := "StandardE"
  const Piece153_2: Head := "rror=null"

  /** Part of the systemd unit, index.js lines 152-153. */
  const SystemUnit3: seq<UnitLine> := [
    Plain(Cat(Piece152_1, Piece152_2)),
    Plain(Cat(Piece153_1, Piece153_2))
  ]

  /** Part of the systemd unit, index.js lines 154-154. */
  const SystemUnit4: seq<UnitLine> := [
    Plain("UMask=0007")
  ]

  /** Part of the systemd unit, index.js lines 155-155. */
  const SystemUnit5: seq<UnitLine> := [
    Holes("ExecStart=", [Slot(NodePath, " "), Slot(NodeArgs, " "), Slot(ProgramPath, " "), Slot(ProgramArgs, "")])
  ]

  /** Part of the systemd unit, index.js lines 156-158. */
  const SystemUnit6: seq<UnitLine> := [
    Plain(""),
    Plain("[Install]"),
    Holes("WantedBy=", [Slot(SystemdWantedBy, "")])
  ]

  /**
    * The LSB init script (`linuxStartStopScript`, index.js lines 10-142),
    * one element per line.
    */
  const InitScript: seq<InitLine> :=
    InitScript1
    + InitScript2
    + InitScript3
    + InitScript4
    + InitScript5
    + InitScript6
    + InitScript7
    + InitScript8
    + InitScript9
    + InitScript10
    + InitScript11
    + InitScript12
    + InitScript13
    + InitScript14
    + InitScript15
    + InitScript16
    + InitScript17
    + InitScript18
    + InitScript19
    + InitScript20
    + InitScript21
    + InitScript22
    + InitScript23
    + InitScript24
    + InitScript25
    + InitScript26
    + InitScript27
    + InitScript28
    + InitScript29
    + InitScript30
    + InitScript31
    + InitScript32
    + InitScript33
    + InitScript34
    + InitScript35
    + InitScript36
    + InitScript37

  /** The systemd unit (`linuxSystemUnit`, index.js lines 144-159), one element per line. */
  const SystemUnit: seq<UnitLine> :=
    SystemUnit1
    + SystemUnit2
    + SystemUnit3
    + SystemUnit4
    + SystemUnit5
    + SystemUnit6
}
