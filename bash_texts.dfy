/** The fixed texts of the bash server: its tip table entries and the one script template that formats. */
module BashTexts {

  const PerformanceTip: string := @"
🚀 Bash Performance Tips:
• Disable Unicode for speed: export LC_ALL=C LANG=C
• Use built-ins over external commands: ${var##*/} instead of basename
• Use read with timeout as sleep alternative: read -t 0.1 <> <(:) 
• Prefer [[ ]] over [ ] for conditionals (faster)
• Use ((...)) for arithmetic instead of expr
"

  const ArraysTip: string := @"
📚 Bash Array Mastery:
• Reverse array: shopt -s extdebug; f()(printf '%s\n' ""${BASH_ARGV[@]}""); f ""$@""
• Random element: ""${arr[RANDOM % ${#arr[@]}]}""
• Remove duplicates: declare -A tmp; for i in ""${arr[@]}""; do tmp[""$i""]=1; done; echo ""${!tmp[@]}""
• Cycle through: arr[${i:=0}]; ((i=i>=${#arr[@]}-1?0:++i))
"

  const StringsTip: string := @"
✂️ String Manipulation Excellence:
• Uppercase: ${var^^}  |  Lowercase: ${var,,}  |  Toggle case: ${var~~}
• Trim whitespace: ${var//[[:space:]]/}
• URL encode: printf '%%%02X' ""'$char"" for special chars
• Strip pattern: ${var##pattern} (from start), ${var%%pattern} (from end)
"

  const LoopsTip: string := @"
🔄 Loop Optimization:
• Compact for: for((;i++<10;)){ echo ""$i"";}
• Infinite loop: for((;;)){ echo hi;}
• Read file: while IFS= read -r line; do ...; done < file
• Brace expansion: {1..100}, {a..z}, {01..100} (zero-padded)
"

  const FilesTip: string := @"
📁 File Operations:
• Create empty: >file (shortest) or :>file
• Read to string: file_data=$(<""file"")
• Read to array: mapfile -t arr < ""file"" (Bash 4+)
• Count files: count() { printf '%s\n' ""$#""; }; count /path/*
"

  const BestPracticesTip: string := @"
✨ Best Practices:
• Shebang: #!/usr/bin/env bash (not #!/bin/bash)
• Command substitution: $(cmd) not \`cmd\`
• Functions: name() { ... } not function name() { ... }
• Quote variables: ""$var"" not $var
• Check if command exists: type -p cmd &>/dev/null
"

  const ShortcutsTip: string := @"
⚡ Powerful Shortcuts:
• Last command: !!
• Last argument: !$
• Parameter expansion: ${var:-default} (use default if unset)
• Quick backup: cp file{,.bak}
• Previous directory: cd -
• Process substitution: diff <(cmd1) <(cmd2)
"

  const MonitorTemplate: string := @"#!/usr/bin/env bash
set -euo pipefail

# System monitoring script
while true; do
    clear
    echo ""=== System Monitor - $(date) ===""
    echo
    echo ""CPU & Memory:""
    top -bn1 | head -5
    echo
    echo ""Disk Usage:""
    df -h | grep -E '^/dev/'
    echo
    echo ""Network:""
    ss -tunap 2>/dev/null | head -10
    
    read -t 5 -n 1 -p ""Press any key to exit..."" && break
done
"
}
