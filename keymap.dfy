/** The GK87 default keymap's callback layer as the firmware sees it: the static
    press-order buffer written in place, its length counter, the Alt+Tab hold flag,
    and the two callbacks, which act by calling firmware primitives. Each primitive
    call is recorded as one entry of an output log. Every method is proved against
    the reference functions of KeymapSpec. */
module Keymap {
  import opened KeymapSpec

  class UserKeymap {
    /** key_event_queue: the fixed buffer of MAX_TRACKED_KEYS entries. */
    const keyEventQueue: array<KeyEvent>
    /** queue_length: how many entries at the front of the buffer are live. */
    var queueLength: u8
    /** is_alt_tab_active: whether the keymap holds LALT down on the host. */
    var isAltTabActive: bool
    /** Every firmware primitive the keymap has called, oldest first. */
    var log: seq<Action>

    /** The buffer has its fixed size, the counter stays within it, and the log
        pairs its LALT presses and releases with the flag. */
    ghost predicate Valid()
      reads this
    {
      && keyEventQueue.Length == MAX_TRACKED_KEYS
      && queueLength as int <= MAX_TRACKED_KEYS
      && AltPaired(log, isAltTabActive)
    }

    /** The live part of the buffer. */
    ghost function Queue(): (q: seq<KeyEvent>)
      reads this, keyEventQueue
      requires Valid()
      ensures |q| == queueLength as int <= MAX_TRACKED_KEYS
    {
      keyEventQueue[..queueLength]
    }

    /** The globals, as the reference model sees them. */
    ghost function Globals(): State
      reads this, keyEventQueue
      requires Valid()
    {
      State(Queue(), isAltTabActive)
    }

    /** The globals at power-on: an empty buffer, Alt not held, nothing sent yet. */
    constructor ()
      ensures Valid() && fresh(keyEventQueue)
      ensures Globals() == PowerOn && log == []
    {
      keyEventQueue := new KeyEvent[MAX_TRACKED_KEYS](_ => KeyEvent(Other(0), 0));
      queueLength := 0;
      isAltTabActive := false;
      log := [];
    }

    // -------------------------------------------------------------------------
    // Firmware primitives: each one is a call recorded in the log.

    method RegisterCode(code: HidCode)
      modifies this`log
      ensures log == old(log) + [Register(code)]
    {
      log := log + [Register(code)];
    }

    method UnregisterCode(code: HidCode)
      modifies this`log
      ensures log == old(log) + [Unregister(code)]
    {
      log := log + [Unregister(code)];
    }

    method TapCode(code: HidCode)
      modifies this`log
      ensures log == old(log) + [Tap(code)]
    {
      log := log + [Tap(code)];
    }

    method TapCode16(code: HidCode)
      modifies this`log
      ensures log == old(log) + [Tap16(code)]
    {
      log := log + [Tap16(code)];
    }

    method LayerOnCall(layer: u8)
      modifies this`log
      ensures log == old(log) + [LayerOn(layer)]
    {
      log := log + [LayerOn(layer)];
    }

    // -------------------------------------------------------------------------
    // Press-order buffer

    /** add_to_queue: write the event at index queue_length and count it, or drop
        it when the buffer is full. Nothing else changes. */
    method AddToQueue(keycode: Keycode, time: u16)
      requires Valid()
      modifies this`queueLength, keyEventQueue
      ensures Valid()
      ensures Queue() == Enqueue(old(Queue()), KeyEvent(keycode, time))
      ensures old(queueLength) as int < MAX_TRACKED_KEYS ==>
        && queueLength == old(queueLength) + 1
        && keyEventQueue[..] == old(keyEventQueue[..])[old(queueLength) as int := KeyEvent(keycode, time)]
      ensures old(queueLength) as int == MAX_TRACKED_KEYS ==>
        queueLength == old(queueLength) && keyEventQueue[..] == old(keyEventQueue[..])
      ensures forall i :: 0 <= i < old(queueLength) as int ==> keyEventQueue[i] == old(keyEventQueue[i])
    {
      if (queueLength as int) < MAX_TRACKED_KEYS {
        keyEventQueue[queueLength] := KeyEvent(keycode, time);
        queueLength := queueLength + 1;
      }
    }

    /** was_first_pressed: the buffer is not empty and its oldest entry is `keycode`. */
    method WasFirstPressed(keycode: Keycode) returns (first: bool)
      requires Valid()
      ensures first <==> queueLength > 0 && keyEventQueue[0].keycode == keycode
      ensures first == FirstPressed(Queue(), keycode)
    {
      first := queueLength > 0 && keyEventQueue[0].keycode == keycode;
    }

    /** reset_queue: forget every entry; the array itself is left as it was. */
    method ResetQueue()
      requires Valid()
      modifies this`queueLength
      ensures Valid() && Queue() == []
      ensures forall k :: !FirstPressed(Queue(), k)
    {
      queueLength := 0;
    }

    // -------------------------------------------------------------------------
    // Callbacks

    /** The ALT_TAB case of the switch, which a KC_L release also runs into. */
    method AltTabBranch(pressed: bool)
      modifies this`isAltTabActive, this`log
      ensures var r := AltTabCase(old(isAltTabActive), pressed);
        isAltTabActive == r.held && log == old(log) + r.emitted
    {
      if pressed {
        if !isAltTabActive {
          isAltTabActive := true;
          RegisterCode(LAlt);
        }
        RegisterCode(Tab);
      } else {
        UnregisterCode(Tab);
      }
    }

    /** process_record_user: record a press in the buffer, then act on the keycode.
        Returns whether the firmware should go on processing the keycode. */
    method ProcessRecordUser(keycode: Keycode, record: KeyRecord) returns (proceed: bool)
      requires Valid()
      modifies this`queueLength, this`isAltTabActive, this`log, keyEventQueue
      ensures Valid()
      ensures var r := ProcessRecord(old(Globals()), keycode, record);
        Globals() == r.after && log == old(log) + r.emitted
      ensures proceed == Continues(keycode)
    {
      ghost var before := Globals();
      ghost var log0 := log;
      if record.pressed {
        AddToQueue(keycode, record.time);
      }
      match keycode {
        case KcL =>
          if record.pressed {
            if record.tapCount != 0 && !record.tapInterrupted {
              TapCode(L);
            } else {
              LayerOnCall(HOLD_LAYER);
            }
            proceed := false;
          } else {
            // No break: a release runs on into the ALT_TAB case.
            AltTabBranch(false);
            proceed := false;
          }
        case AltTab =>
          AltTabBranch(record.pressed);
          proceed := false;
        case DeskNext =>
          if record.pressed {
            TapCode16(CtrlGuiRight);
          }
          proceed := false;
        case DeskPrev =>
          if record.pressed {
            TapCode16(CtrlGuiLeft);
          }
          proceed := false;
        case Other(_) =>
          proceed := true;
      }
      ProcessRecordKeepsAltPaired(log0, before, keycode, record);
    }

    /** layer_state_set_user: empty the buffer, let go of a held Alt, and hand the
        layer state back unchanged. */
    method LayerStateSetUser(state: u32) returns (result: u32)
      requires Valid()
      modifies this`queueLength, this`isAltTabActive, this`log
      ensures Valid()
      ensures var r := LayerStateSet(old(Globals()));
        Globals() == r.after && log == old(log) + r.emitted
      ensures result == state
    {
      ghost var before := Globals();
      ghost var log0 := log;
      ResetQueue();
      if isAltTabActive {
        UnregisterCode(LAlt);
        isAltTabActive := false;
      }
      LayerStateSetKeepsAltPaired(log0, before);
      result := state;
    }
  }
}
