/**
 * The SDL device's key table: the SDL key code to Irrlicht key code pairs
 * that createKeyMap pushes, the sort that orders them by SDL key code, and
 * the binary search a key event uses to translate its code.
 */
module SdlKeyMap {

  // SDL2 key codes: a printable key is its character; any other key is its
  // USB HID scancode with bit 30 set.
  const SCANCODE_MASK: int := 0x4000_0000
  const SDLK_0: int := 48  // '0'
  const SDLK_1: int := 49  // '1'
  const SDLK_2: int := 50  // '2'
  const SDLK_3: int := 51  // '3'
  const SDLK_4: int := 52  // '4'
  const SDLK_5: int := 53  // '5'
  const SDLK_6: int := 54  // '6'
  const SDLK_7: int := 55  // '7'
  const SDLK_8: int := 56  // '8'
  const SDLK_9: int := 57  // '9'
  const SDLK_a: int := 97  // 'a'
  const SDLK_APPLICATION: int := SCANCODE_MASK + 101
  const SDLK_AUDIOPLAY: int := SCANCODE_MASK + 261
  const SDLK_b: int := 98  // 'b'
  const SDLK_BACKSPACE: int := 8
  const SDLK_c: int := 99  // 'c'
  const SDLK_CAPSLOCK: int := SCANCODE_MASK + 57
  const SDLK_CLEAR: int := SCANCODE_MASK + 156
  const SDLK_COMMA: int := 44
  const SDLK_CRSEL: int := SCANCODE_MASK + 163
  const SDLK_d: int := 100  // 'd'
  const SDLK_DELETE: int := 127
  const SDLK_DOWN: int := SCANCODE_MASK + 81
  const SDLK_e: int := 101  // 'e'
  const SDLK_END: int := SCANCODE_MASK + 77
  const SDLK_ESCAPE: int := 27
  const SDLK_EXECUTE: int := SCANCODE_MASK + 116
  const SDLK_EXSEL: int := SCANCODE_MASK + 164
  const SDLK_f: int := 102  // 'f'
  const SDLK_F1: int := SCANCODE_MASK + 58
  const SDLK_F2: int := SCANCODE_MASK + 59
  const SDLK_F3: int := SCANCODE_MASK + 60
  const SDLK_F4: int := SCANCODE_MASK + 61
  const SDLK_F5: int := SCANCODE_MASK + 62
  const SDLK_F6: int := SCANCODE_MASK + 63
  const SDLK_F7: int := SCANCODE_MASK + 64
  const SDLK_F8: int := SCANCODE_MASK + 65
  const SDLK_F9: int := SCANCODE_MASK + 66
  const SDLK_F10: int := SCANCODE_MASK + 67
  const SDLK_F11: int := SCANCODE_MASK + 68
  const SDLK_F12: int := SCANCODE_MASK + 69
  const SDLK_F13: int := SCANCODE_MASK + 104
  const SDLK_F14: int := SCANCODE_MASK + 105
  const SDLK_F15: int := SCANCODE_MASK + 106
  const SDLK_F16: int := SCANCODE_MASK + 107
  const SDLK_F17: int := SCANCODE_MASK + 108
  const SDLK_F18: int := SCANCODE_MASK + 109
  const SDLK_F19: int := SCANCODE_MASK + 110
  const SDLK_F20: int := SCANCODE_MASK + 111
  const SDLK_F21: int := SCANCODE_MASK + 112
  const SDLK_F22: int := SCANCODE_MASK + 113
  const SDLK_F23: int := SCANCODE_MASK + 114
  const SDLK_F24: int := SCANCODE_MASK + 115
  const SDLK_g: int := 103  // 'g'
  const SDLK_h: int := 104  // 'h'
  const SDLK_HELP: int := SCANCODE_MASK + 117
  const SDLK_HOME: int := SCANCODE_MASK + 74
  const SDLK_i: int := 105  // 'i'
  const SDLK_INSERT: int := SCANCODE_MASK + 73
  const SDLK_j: int := 106  // 'j'
  const SDLK_k: int := 107  // 'k'
  const SDLK_KP_0: int := SCANCODE_MASK + 98
  const SDLK_KP_00: int := SCANCODE_MASK + 176
  const SDLK_KP_000: int := SCANCODE_MASK + 177
  const SDLK_KP_1: int := SCANCODE_MASK + 89
  const SDLK_KP_2: int := SCANCODE_MASK + 90
  const SDLK_KP_3: int := SCANCODE_MASK + 91
  const SDLK_KP_4: int := SCANCODE_MASK + 92
  const SDLK_KP_5: int := SCANCODE_MASK + 93
  const SDLK_KP_6: int := SCANCODE_MASK + 94
  const SDLK_KP_7: int := SCANCODE_MASK + 95
  const SDLK_KP_8: int := SCANCODE_MASK + 96
  const SDLK_KP_9: int := SCANCODE_MASK + 97
  const SDLK_KP_A: int := SCANCODE_MASK + 188
  const SDLK_KP_B: int := SCANCODE_MASK + 189
  const SDLK_KP_BACKSPACE: int := SCANCODE_MASK + 187
  const SDLK_KP_C: int := SCANCODE_MASK + 190
  const SDLK_KP_CLEAR: int := SCANCODE_MASK + 216
  const SDLK_KP_D: int := SCANCODE_MASK + 191
  const SDLK_KP_DECIMAL: int := SCANCODE_MASK + 220
  const SDLK_KP_DIVIDE: int := SCANCODE_MASK + 84
  const SDLK_KP_E: int := SCANCODE_MASK + 192
  const SDLK_KP_ENTER: int := SCANCODE_MASK + 88
  const SDLK_KP_F: int := SCANCODE_MASK + 193
  const SDLK_KP_MEMADD: int := SCANCODE_MASK + 211
  const SDLK_KP_MEMCLEAR: int := SCANCODE_MASK + 210
  const SDLK_KP_MEMDIVIDE: int := SCANCODE_MASK + 214
  const SDLK_KP_MEMMULTIPLY: int := SCANCODE_MASK + 213
  const SDLK_KP_MEMSUBTRACT: int := SCANCODE_MASK + 212
  const SDLK_KP_MINUS: int := SCANCODE_MASK + 86
  const SDLK_KP_MULTIPLY: int := SCANCODE_MASK + 85
  const SDLK_KP_PLUS: int := SCANCODE_MASK + 87
  const SDLK_KP_SPACE: int := SCANCODE_MASK + 205
  const SDLK_KP_TAB: int := SCANCODE_MASK + 186
  const SDLK_l: int := 108  // 'l'
  const SDLK_LALT: int := SCANCODE_MASK + 226
  const SDLK_LCTRL: int := SCANCODE_MASK + 224
  const SDLK_LEFT: int := SCANCODE_MASK + 80
  const SDLK_LGUI: int := SCANCODE_MASK + 227
  const SDLK_LSHIFT: int := SCANCODE_MASK + 225
  const SDLK_m: int := 109  // 'm'
  const SDLK_MENU: int := SCANCODE_MASK + 118
  const SDLK_MINUS: int := 45
  const SDLK_n: int := 110  // 'n'
  const SDLK_NUMLOCKCLEAR: int := SCANCODE_MASK + 83
  const SDLK_o: int := 111  // 'o'
  const SDLK_p: int := 112  // 'p'
  const SDLK_PAGEDOWN: int := SCANCODE_MASK + 78
  const SDLK_PAGEUP: int := SCANCODE_MASK + 75
  const SDLK_PAUSE: int := SCANCODE_MASK + 72
  const SDLK_PERIOD: int := 46
  const SDLK_PLUS: int := 43
  const SDLK_PRINTSCREEN: int := SCANCODE_MASK + 70
  const SDLK_q: int := 113  // 'q'
  const SDLK_r: int := 114  // 'r'
  const SDLK_RALT: int := SCANCODE_MASK + 230
  const SDLK_RCTRL: int := SCANCODE_MASK + 228
  const SDLK_RETURN: int := 13
  const SDLK_RGUI: int := SCANCODE_MASK + 231
  const SDLK_RIGHT: int := SCANCODE_MASK + 79
  const SDLK_RSHIFT: int := SCANCODE_MASK + 229
  const SDLK_s: int := 115  // 's'
  const SDLK_SCROLLLOCK: int := SCANCODE_MASK + 71
  const SDLK_SEPARATOR: int := SCANCODE_MASK + 159
  const SDLK_SLASH: int := 47
  const SDLK_SLEEP: int := SCANCODE_MASK + 282
  const SDLK_SPACE: int := 32
  const SDLK_t: int := 116  // 't'
  const SDLK_TAB: int := 9
  const SDLK_u: int := 117  // 'u'
  const SDLK_UP: int := SCANCODE_MASK + 82
  const SDLK_v: int := 118  // 'v'
  const SDLK_w: int := 119  // 'w'
  const SDLK_x: int := 120  // 'x'
  const SDLK_y: int := 121  // 'y'
  const SDLK_z: int := 122  // 'z'

  /** Irrlicht's key codes, as far as the table uses them. */
  datatype IrrKey =
    | KEY_UNKNOWN
    | KEY_KEY_0
    | KEY_KEY_1
    | KEY_KEY_2
    | KEY_KEY_3
    | KEY_KEY_4
    | KEY_KEY_5
    | KEY_KEY_6
    | KEY_KEY_7
    | KEY_KEY_8
    | KEY_KEY_9
    | KEY_KEY_A
    | KEY_APPS
    | KEY_PLAY
    | KEY_KEY_B
    | KEY_BACK
    | KEY_KEY_C
    | KEY_CAPITAL
    | KEY_CLEAR
    | KEY_COMMA
    | KEY_CRSEL
    | KEY_KEY_D
    | KEY_DELETE
    | KEY_DOWN
    | KEY_KEY_E
    | KEY_END
    | KEY_ESCAPE
    | KEY_EXECUT
    | KEY_EXSEL
    | KEY_KEY_F
    | KEY_F1
    | KEY_F2
    | KEY_F3
    | KEY_F4
    | KEY_F5
    | KEY_F6
    | KEY_F7
    | KEY_F8
    | KEY_F9
    | KEY_F10
    | KEY_F11
    | KEY_F12
    | KEY_F13
    | KEY_F14
    | KEY_F15
    | KEY_F16
    | KEY_F17
    | KEY_F18
    | KEY_F19
    | KEY_F20
    | KEY_F21
    | KEY_F22
    | KEY_F23
    | KEY_F24
    | KEY_KEY_G
    | KEY_KEY_H
    | KEY_HELP
    | KEY_HOME
    | KEY_KEY_I
    | KEY_INSERT
    | KEY_KEY_J
    | KEY_KEY_K
    | KEY_NUMPAD0
    | KEY_NUMPAD1
    | KEY_NUMPAD2
    | KEY_NUMPAD3
    | KEY_NUMPAD4
    | KEY_NUMPAD5
    | KEY_NUMPAD6
    | KEY_NUMPAD7
    | KEY_NUMPAD8
    | KEY_NUMPAD9
    | KEY_DECIMAL
    | KEY_DIVIDE
    | KEY_RETURN
    | KEY_PLUS
    | KEY_MULTIPLY
    | KEY_MINUS
    | KEY_SUBTRACT
    | KEY_ADD
    | KEY_SPACE
    | KEY_TAB
    | KEY_KEY_L
    | KEY_LMENU
    | KEY_LCONTROL
    | KEY_LEFT
    | KEY_LWIN
    | KEY_LSHIFT
    | KEY_KEY_M
    | KEY_RMENU
    | KEY_KEY_N
    | KEY_NUMLOCK
    | KEY_KEY_O
    | KEY_KEY_P
    | KEY_NEXT
    | KEY_PRIOR
    | KEY_PAUSE
    | KEY_PERIOD
    | KEY_SNAPSHOT
    | KEY_KEY_Q
    | KEY_KEY_R
    | KEY_RCONTROL
    | KEY_RWIN
    | KEY_RIGHT
    | KEY_RSHIFT
    | KEY_KEY_S
    | KEY_SCROLL
    | KEY_SEPARATOR
    | KEY_SLEEP
    | KEY_KEY_T
    | KEY_KEY_U
    | KEY_UP
    | KEY_KEY_V
    | KEY_KEY_W
    | KEY_KEY_X
    | KEY_KEY_Y
    | KEY_KEY_Z

  /**
   * The Irrlicht key paired with an SDL key code by the table, one arm per
   * pushed pair in push order (SDLK_KP_MEMDIVIDE is pushed twice, both
   * times with KEY_DIVIDE); KEY_UNKNOWN for a code the table lacks.
   */
  function IrrKeyFor(code: int): IrrKey {
    if code == SDLK_0 then KEY_KEY_0
    else if code == SDLK_1 then KEY_KEY_1
    else if code == SDLK_2 then KEY_KEY_2
    else if code == SDLK_3 then KEY_KEY_3
    else if code == SDLK_4 then KEY_KEY_4
    else if code == SDLK_5 then KEY_KEY_5
    else if code == SDLK_6 then KEY_KEY_6
    else if code == SDLK_7 then KEY_KEY_7
    else if code == SDLK_8 then KEY_KEY_8
    else if code == SDLK_9 then KEY_KEY_9
    else if code == SDLK_a then KEY_KEY_A
    else if code == SDLK_APPLICATION then KEY_APPS
    else if code == SDLK_AUDIOPLAY then KEY_PLAY
    else if code == SDLK_b then KEY_KEY_B
    else if code == SDLK_BACKSPACE then KEY_BACK
    else if code == SDLK_c then KEY_KEY_C
    else if code == SDLK_CAPSLOCK then KEY_CAPITAL
    else if code == SDLK_CLEAR then KEY_CLEAR
    else if code == SDLK_COMMA then KEY_COMMA
    else if code == SDLK_CRSEL then KEY_CRSEL
    else if code == SDLK_d then KEY_KEY_D
    else if code == SDLK_DELETE then KEY_DELETE
    else if code == SDLK_DOWN then KEY_DOWN
    else if code == SDLK_e then KEY_KEY_E
    else if code == SDLK_END then KEY_END
    else if code == SDLK_ESCAPE then KEY_ESCAPE
    else if code == SDLK_EXECUTE then KEY_EXECUT
    else if code == SDLK_EXSEL then KEY_EXSEL
    else if code == SDLK_f then KEY_KEY_F
    else if code == SDLK_F1 then KEY_F1
    else if code == SDLK_F2 then KEY_F2
    else if code == SDLK_F3 then KEY_F3
    else if code == SDLK_F4 then KEY_F4
    else if code == SDLK_F5 then KEY_F5
    else if code == SDLK_F6 then KEY_F6
    else if code == SDLK_F7 then KEY_F7
    else if code == SDLK_F8 then KEY_F8
    else if code == SDLK_F9 then KEY_F9
    else if code == SDLK_F10 then KEY_F10
    else if code == SDLK_F11 then KEY_F11
    else if code == SDLK_F12 then KEY_F12
    else if code == SDLK_F13 then KEY_F13
    else if code == SDLK_F14 then KEY_F14
    else if code == SDLK_F15 then KEY_F15
    else if code == SDLK_F16 then KEY_F16
    else if code == SDLK_F17 then KEY_F17
    else if code == SDLK_F18 then KEY_F18
    else if code == SDLK_F19 then KEY_F19
    else if code == SDLK_F20 then KEY_F20
    else if code == SDLK_F21 then KEY_F21
    else if code == SDLK_F22 then KEY_F22
    else if code == SDLK_F23 then KEY_F23
    else if code == SDLK_F24 then KEY_F24
    else if code == SDLK_g then KEY_KEY_G
    else if code == SDLK_h then KEY_KEY_H
    else if code == SDLK_HELP then KEY_HELP
    else if code == SDLK_HOME then KEY_HOME
    else if code == SDLK_i then KEY_KEY_I
    else if code == SDLK_INSERT then KEY_INSERT
    else if code == SDLK_j then KEY_KEY_J
    else if code == SDLK_k then KEY_KEY_K
    else if code == SDLK_KP_0 then KEY_NUMPAD0
    else if code == SDLK_KP_00 then KEY_NUMPAD0
    else if code == SDLK_KP_000 then KEY_NUMPAD0
    else if code == SDLK_KP_1 then KEY_NUMPAD1
    else if code == SDLK_KP_2 then KEY_NUMPAD2
    else if code == SDLK_KP_3 then KEY_NUMPAD3
    else if code == SDLK_KP_4 then KEY_NUMPAD4
    else if code == SDLK_KP_5 then KEY_NUMPAD5
    else if code == SDLK_KP_6 then KEY_NUMPAD6
    else if code == SDLK_KP_7 then KEY_NUMPAD7
    else if code == SDLK_KP_8 then KEY_NUMPAD8
    else if code == SDLK_KP_9 then KEY_NUMPAD9
    else if code == SDLK_KP_A then KEY_KEY_A
    else if code == SDLK_KP_B then KEY_KEY_B
    else if code == SDLK_KP_BACKSPACE then KEY_BACK
    else if code == SDLK_KP_C then KEY_KEY_C
    else if code == SDLK_KP_CLEAR then KEY_CLEAR
    else if code == SDLK_KP_D then KEY_KEY_D
    else if code == SDLK_KP_DECIMAL then KEY_DECIMAL
    else if code == SDLK_KP_DIVIDE then KEY_DIVIDE
    else if code == SDLK_KP_E then KEY_KEY_E
    else if code == SDLK_KP_ENTER then KEY_RETURN
    else if code == SDLK_KP_F then KEY_KEY_F
    else if code == SDLK_KP_MEMADD then KEY_PLUS
    else if code == SDLK_KP_MEMCLEAR then KEY_CLEAR
    else if code == SDLK_KP_MEMDIVIDE then KEY_DIVIDE
    else if code == SDLK_KP_MEMMULTIPLY then KEY_MULTIPLY
    else if code == SDLK_KP_MEMSUBTRACT then KEY_MINUS
    else if code == SDLK_KP_MINUS then KEY_SUBTRACT
    else if code == SDLK_KP_MULTIPLY then KEY_MULTIPLY
    else if code == SDLK_KP_PLUS then KEY_ADD
    else if code == SDLK_KP_SPACE then KEY_SPACE
    else if code == SDLK_KP_TAB then KEY_TAB
    else if code == SDLK_l then KEY_KEY_L
    else if code == SDLK_LALT then KEY_LMENU
    else if code == SDLK_LCTRL then KEY_LCONTROL
    else if code == SDLK_LEFT then KEY_LEFT
    else if code == SDLK_LGUI then KEY_LWIN
    else if code == SDLK_LSHIFT then KEY_LSHIFT
    else if code == SDLK_m then KEY_KEY_M
    else if code == SDLK_MENU then KEY_RMENU
    else if code == SDLK_MINUS then KEY_MINUS
    else if code == SDLK_n then KEY_KEY_N
    else if code == SDLK_NUMLOCKCLEAR then KEY_NUMLOCK
    else if code == SDLK_o then KEY_KEY_O
    else if code == SDLK_p then KEY_KEY_P
    else if code == SDLK_PAGEDOWN then KEY_NEXT
    else if code == SDLK_PAGEUP then KEY_PRIOR
    else if code == SDLK_PAUSE then KEY_PAUSE
    else if code == SDLK_PERIOD then KEY_PERIOD
    else if code == SDLK_PLUS then KEY_PLUS
    else if code == SDLK_PRINTSCREEN then KEY_SNAPSHOT
    else if code == SDLK_q then KEY_KEY_Q
    else if code == SDLK_r then KEY_KEY_R
    else if code == SDLK_RALT then KEY_RMENU
    else if code == SDLK_RCTRL then KEY_RCONTROL
    else if code == SDLK_RETURN then KEY_RETURN
    else if code == SDLK_RGUI then KEY_RWIN
    else if code == SDLK_RIGHT then KEY_RIGHT
    else if code == SDLK_RSHIFT then KEY_RSHIFT
    else if code == SDLK_s then KEY_KEY_S
    else if code == SDLK_SCROLLLOCK then KEY_SCROLL
    else if code == SDLK_SEPARATOR then KEY_SEPARATOR
    else if code == SDLK_SLASH then KEY_DIVIDE
    else if code == SDLK_SLEEP then KEY_SLEEP
    else if code == SDLK_SPACE then KEY_SPACE
    else if code == SDLK_t then KEY_KEY_T
    else if code == SDLK_TAB then KEY_TAB
    else if code == SDLK_u then KEY_KEY_U
    else if code == SDLK_UP then KEY_UP
    else if code == SDLK_v then KEY_KEY_V
    else if code == SDLK_w then KEY_KEY_W
    else if code == SDLK_x then KEY_KEY_X
    else if code == SDLK_y then KEY_KEY_Y
    else if code == SDLK_z then KEY_KEY_Z
    else KEY_UNKNOWN
  }

  /** The SDL key codes in the order createKeyMap pushes them. */
  const PushOrder: seq<int> :=
    [ SDLK_0,
      SDLK_1,
      SDLK_2,
      SDLK_3,
      SDLK_4,
      SDLK_5,
      SDLK_6,
      SDLK_7,
      SDLK_8,
      SDLK_9,
      SDLK_a,
      SDLK_APPLICATION,
      SDLK_AUDIOPLAY,
      SDLK_b,
      SDLK_BACKSPACE,
      SDLK_c,
      SDLK_CAPSLOCK,
      SDLK_CLEAR,
      SDLK_COMMA,
      SDLK_CRSEL,
      SDLK_d,
      SDLK_DELETE,
      SDLK_DOWN,
      SDLK_e,
      SDLK_END,
      SDLK_ESCAPE,
      SDLK_EXECUTE,
      SDLK_EXSEL,
      SDLK_f,
      SDLK_F1,
      SDLK_F2,
      SDLK_F3,
      SDLK_F4,
      SDLK_F5,
      SDLK_F6,
      SDLK_F7,
      SDLK_F8,
      SDLK_F9,
      SDLK_F10,
      SDLK_F11,
      SDLK_F12,
      SDLK_F13,
      SDLK_F14,
      SDLK_F15,
      SDLK_F16,
      SDLK_F17,
      SDLK_F18,
      SDLK_F19,
      SDLK_F20,
      SDLK_F21,
      SDLK_F22,
      SDLK_F23,
      SDLK_F24,
      SDLK_g,
      SDLK_h,
      SDLK_HELP,
      SDLK_HOME,
      SDLK_i,
      SDLK_INSERT,
      SDLK_j,
      SDLK_k,
      SDLK_KP_0,
      SDLK_KP_00,
      SDLK_KP_000,
      SDLK_KP_1,
      SDLK_KP_2,
      SDLK_KP_3,
      SDLK_KP_4,
      SDLK_KP_5,
      SDLK_KP_6,
      SDLK_KP_7,
      SDLK_KP_8,
      SDLK_KP_9,
      SDLK_KP_A,
      SDLK_KP_B,
      SDLK_KP_BACKSPACE,
      SDLK_KP_C,
      SDLK_KP_CLEAR,
      SDLK_KP_D,
      SDLK_KP_DECIMAL,
      SDLK_KP_DIVIDE,
      SDLK_KP_E,
      SDLK_KP_ENTER,
      SDLK_KP_F,
      SDLK_KP_MEMADD,
      SDLK_KP_MEMCLEAR,
      SDLK_KP_MEMDIVIDE,
      SDLK_KP_MEMMULTIPLY,
      SDLK_KP_MEMSUBTRACT,
      SDLK_KP_MEMDIVIDE,
      SDLK_KP_MINUS,
      SDLK_KP_MULTIPLY,
      SDLK_KP_PLUS,
      SDLK_KP_SPACE,
      SDLK_KP_TAB,
      SDLK_l,
      SDLK_LALT,
      SDLK_LCTRL,
      SDLK_LEFT,
      SDLK_LGUI,
      SDLK_LSHIFT,
      SDLK_m,
      SDLK_MENU,
      SDLK_MINUS,
      SDLK_n,
      SDLK_NUMLOCKCLEAR,
      SDLK_o,
      SDLK_p,
      SDLK_PAGEDOWN,
      SDLK_PAGEUP,
      SDLK_PAUSE,
      SDLK_PERIOD,
      SDLK_PLUS,
      SDLK_PRINTSCREEN,
      SDLK_q,
      SDLK_r,
      SDLK_RALT,
      SDLK_RCTRL,
      SDLK_RETURN,
      SDLK_RGUI,
      SDLK_RIGHT,
      SDLK_RSHIFT,
      SDLK_s,
      SDLK_SCROLLLOCK,
      SDLK_SEPARATOR,
      SDLK_SLASH,
      SDLK_SLEEP,
      SDLK_SPACE,
      SDLK_t,
      SDLK_TAB,
      SDLK_u,
      SDLK_UP,
      SDLK_v,
      SDLK_w,
      SDLK_x,
      SDLK_y,
      SDLK_z ]

  /** One entry of the table. */
  datatype KeyEntry = KeyEntry(sdlKey: int, irrKey: IrrKey)

  /** The table entry pushed for `code`. */
  function Entry(code: int): KeyEntry {
    KeyEntry(code, IrrKeyFor(code))
  }

  /** The entries in push order. */
  function PushedEntries(): (r: seq<KeyEntry>)
    ensures |r| == |PushOrder|
    ensures forall i :: 0 <= i < |r| ==> r[i] == Entry(PushOrder[i])
  {
    seq(|PushOrder|, i requires 0 <= i < |PushOrder| => Entry(PushOrder[i]))
  }

  /** Ordered by SDL key code, as SKeyMap's operator< compares. */
  predicate SortedByKey(s: seq<KeyEntry>) {
    forall i, j :: 0 <= i < j < |s| ==> s[i].sdlKey <= s[j].sdlKey
  }

  /** Every entry pairs its SDL key with the key the table gives it. */
  predicate Paired(s: seq<KeyEntry>) {
    forall i :: 0 <= i < |s| ==> s[i] == Entry(s[i].sdlKey)
  }

  /** The state createKeyMap leaves: the pushed entries, sorted. */
  predicate IsKeyMap(s: seq<KeyEntry>) {
    SortedByKey(s) && multiset(s) == multiset(PushedEntries())
  }

  /** The pushed entries are all paired, so any rearrangement of them is. */
  lemma PermutationPaired(s: seq<KeyEntry>)
    requires multiset(s) == multiset(PushedEntries())
    ensures Paired(s)
    ensures forall code :: (exists i :: 0 <= i < |s| && s[i].sdlKey == code) <==> code in PushOrder
  {
    var p := PushedEntries();
    forall i | 0 <= i < |s|
      ensures s[i] == Entry(s[i].sdlKey)
    {
      assert s[i] in multiset(p);
    }
    forall code
      ensures (exists i :: 0 <= i < |s| && s[i].sdlKey == code) <==> code in PushOrder
    {
      if exists i :: 0 <= i < |s| && s[i].sdlKey == code {
        var i :| 0 <= i < |s| && s[i].sdlKey == code;
        assert s[i] in multiset(p);
        var j :| 0 <= j < |p| && p[j] == s[i];
        assert PushOrder[j] == code;
      }
      if code in PushOrder {
        var j :| 0 <= j < |PushOrder| && PushOrder[j] == code;
        assert p[j] in multiset(s);
        var i :| 0 <= i < |s| && s[i] == p[j];
      }
    }
  }

  /**
   * Pushes of the same SDL key code make the same entry: the two pushes of
   * SDLK_KP_MEMDIVIDE both pair it with KEY_DIVIDE.
   */
  lemma DuplicatePushesAgree(i: nat, j: nat)
    requires i < |PushOrder| && j < |PushOrder| && PushOrder[i] == PushOrder[j]
    ensures PushedEntries()[i] == PushedEntries()[j]
    ensures PushOrder[i] == SDLK_KP_MEMDIVIDE ==> PushedEntries()[i].irrKey == KEY_DIVIDE
  {
  }

  /**
   * Two sorted arrangements of the same paired entries are equal: entries
   * with equal SDL keys are equal entries, so the table createKeyMap
   * leaves does not depend on which sort produced it.
   */
  lemma {:induction false} SortedPermutationUnique(a: seq<KeyEntry>, b: seq<KeyEntry>)
    requires Paired(a) && Paired(b) && SortedByKey(a) && SortedByKey(b)
    requires multiset(a) == multiset(b)
    ensures a == b
    decreases |a|
  {
    assert |b| == |multiset(b)| == |a|;
    if |a| > 0 {
      SameFirstEntry(a, b);
      DropFirst(a);
      DropFirst(b);
      SortedPermutationUnique(a[1..], b[1..]);
    }
  }

  /** Removing the first entry keeps a sorted, paired table sorted and paired. */
  lemma DropFirst(a: seq<KeyEntry>)
    requires Paired(a) && SortedByKey(a) && |a| > 0
    ensures Paired(a[1..]) && SortedByKey(a[1..])
    ensures multiset(a[1..]) == multiset(a) - multiset{a[0]}
  {
    assert a == [a[0]] + a[1..];
  }

  /** Sorted arrangements of the same paired entries start with the same entry. */
  lemma SameFirstEntry(a: seq<KeyEntry>, b: seq<KeyEntry>)
    requires Paired(a) && Paired(b) && SortedByKey(a) && SortedByKey(b)
    requires multiset(a) == multiset(b) && |a| > 0 && |b| > 0
    ensures a[0] == b[0]
  {
    assert a[0] in multiset(b);
    assert b[0] in multiset(a);
    var i :| 0 <= i < |b| && b[i] == a[0];
    var j :| 0 <= j < |a| && a[j] == b[0];
    assert a[0].sdlKey <= a[j].sdlKey == b[0].sdlKey <= b[i].sdlKey == a[0].sdlKey;
  }

  /** Exchanges a[j - 1] and a[j]; the contents stay a permutation. */
  method SwapDown(a: array<KeyEntry>, j: nat)
    requires 0 < j < a.Length
    modifies a
    ensures a[..] == old(a[..])[j - 1 := old(a[j])][j := old(a[j - 1])]
    ensures multiset(a[..]) == multiset(old(a[..]))
  {
    a[j - 1], a[j] := a[j], a[j - 1];
  }

  /**
   * Moves a[i] down into the sorted prefix a[..i], so that a[..i + 1] is
   * sorted; the cells after i are untouched.
   */
  method SinkInto(a: array<KeyEntry>, i: nat)
    requires i < a.Length && SortedByKey(a[..i])
    modifies a
    ensures SortedByKey(a[..i + 1])
    ensures multiset(a[..]) == multiset(old(a[..]))
    ensures a[i + 1..] == old(a[i + 1..])
  {
    var j := i;
    while j > 0 && a[j - 1].sdlKey > a[j].sdlKey
      invariant 0 <= j <= i
      invariant multiset(a[..]) == multiset(old(a[..]))
      invariant a[i + 1..] == old(a[i + 1..])
      invariant forall k, m :: 0 <= k < m <= i && k != j && m != j ==> a[k].sdlKey <= a[m].sdlKey
      invariant forall m :: j < m <= i ==> a[j].sdlKey <= a[m].sdlKey
    {
      SwapDown(a, j);
      j := j - 1;
    }
  }

  /** Sorts the table by SDL key code, keeping its entries. */
  method SortKeyMap(a: array<KeyEntry>)
    modifies a
    ensures SortedByKey(a[..])
    ensures multiset(a[..]) == multiset(old(a[..]))
  {
    var i := 0;
    while i < a.Length
      invariant 0 <= i <= a.Length
      invariant SortedByKey(a[..i])
      invariant multiset(a[..]) == multiset(old(a[..]))
    {
      SinkInto(a, i);
      i := i + 1;
    }
    assert a[..i] == a[..];
  }

  /** createKeyMap: pushes the table's entries in order, then sorts them. */
  method CreateKeyMap() returns (keyMap: array<KeyEntry>)
    ensures fresh(keyMap)
    ensures IsKeyMap(keyMap[..])
  {
    keyMap := new KeyEntry[|PushOrder|](i requires 0 <= i < |PushOrder| => Entry(PushOrder[i]));
    assert keyMap[..] == PushedEntries();
    SortKeyMap(keyMap);
  }

  /**
   * The table's binary search between lo and hi: an index whose entry has
   * SDL key `code`, or -1 once the range is empty.
   */
  function SearchIndex(table: seq<KeyEntry>, code: int, lo: int, hi: int): (idx: int)
    requires 0 <= lo <= hi <= |table|
    ensures idx == -1 || (lo <= idx < hi && table[idx].sdlKey == code)
    decreases hi - lo
  {
    if lo >= hi then -1
    else
      var mid := (lo + hi) / 2;
      if code < table[mid].sdlKey then SearchIndex(table, code, lo, mid)
      else if table[mid].sdlKey < code then SearchIndex(table, code, mid + 1, hi)
      else mid
  }

  /** The key a key event carries: the entry the search finds, or KEY_UNKNOWN. */
  function TableKey(table: seq<KeyEntry>, code: int): IrrKey {
    var idx := SearchIndex(table, code, 0, |table|);
    if idx > -1 then table[idx].irrKey else KEY_UNKNOWN
  }

  /** On a sorted table the search misses only codes no entry has. */
  lemma {:induction false} SearchIndexComplete(table: seq<KeyEntry>, code: int, lo: int, hi: int)
    requires 0 <= lo <= hi <= |table| && SortedByKey(table)
    ensures SearchIndex(table, code, lo, hi) == -1 <==> forall i :: lo <= i < hi ==> table[i].sdlKey != code
    decreases hi - lo
  {
    if lo < hi {
      var mid := (lo + hi) / 2;
      if code < table[mid].sdlKey {
        SearchIndexComplete(table, code, lo, mid);
        forall i | mid <= i < hi
          ensures table[i].sdlKey != code
        {
          assert table[mid].sdlKey <= table[i].sdlKey;
        }
      } else if table[mid].sdlKey < code {
        SearchIndexComplete(table, code, mid + 1, hi);
        forall i | lo <= i <= mid
          ensures table[i].sdlKey != code
        {
          assert table[i].sdlKey <= table[mid].sdlKey;
        }
      }
    }
  }

  /**
   * Looking a key up in the table createKeyMap leaves gives the key paired
   * with it when it was pushed, and KEY_UNKNOWN for any other code.
   */
  lemma TableKeyInKeyMap(table: seq<KeyEntry>, code: int)
    requires IsKeyMap(table)
    ensures TableKey(table, code) == if code in PushOrder then IrrKeyFor(code) else KEY_UNKNOWN
  {
    PermutationPaired(table);
    SearchIndexComplete(table, code, 0, |table|);
  }

  /** The table's binary search, as the key handlers call it. */
  method FindKey(keyMap: array<KeyEntry>, code: int) returns (idx: int)
    ensures idx == SearchIndex(keyMap[..], code, 0, keyMap.Length)
  {
    var lo, hi := 0, keyMap.Length;
    while lo < hi
      invariant 0 <= lo <= hi <= keyMap.Length
      invariant SearchIndex(keyMap[..], code, 0, keyMap.Length) == SearchIndex(keyMap[..], code, lo, hi)
    {
      var mid := (lo + hi) / 2;
      if code < keyMap[mid].sdlKey {
        hi := mid;
      } else if keyMap[mid].sdlKey < code {
        lo := mid + 1;
      } else {
        return mid;
      }
    }
    idx := -1;
  }

  /**
   * The translation a key event makes: the entry's key when the search
   * finds one, KEY_UNKNOWN otherwise.
   */
  method TranslateKey(keyMap: array<KeyEntry>, code: int) returns (key: IrrKey)
    ensures key == TableKey(keyMap[..], code)
  {
    key := KEY_UNKNOWN;
    var idx := FindKey(keyMap, code);
    if idx > -1 {
      key := keyMap[idx].irrKey;
    }
  }
}
