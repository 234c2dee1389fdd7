/**
 * Device selection of the newer package (`packages/wandler/utils/device-utils.ts`):
 * an explicit device is kept, with `q4` recommended for WASM and `q4f16` otherwise; `auto`
 * and `best` probe for a WebGPU adapter and fall back to WASM with `q4`.
 */
module DeviceUtils {
  import opened Types

  /** What probing `navigator.gpu` turns up; the probe itself is outside the model. */
  datatype GpuProbe = NoGpuApi | NoAdapter | AdapterFound | ProbeThrows

  /** `DeviceSelection` */
  datatype DeviceSelection = DeviceSelection(device: Device, recommendedDtype: Dtype)

  /** `selectBestDevice(requested)` */
  function SelectBestDevice(requested: Device, probe: GpuProbe): (s: DeviceSelection)
    ensures requested != AutoDevice && requested != Best ==> s.device == requested
    ensures requested != AutoDevice && requested != Best ==> s.recommendedDtype == (if requested == Wasm then Q4 else Q4f16)
    ensures (requested == AutoDevice || requested == Best) ==>
      s == (if probe == AdapterFound then DeviceSelection(WebGpu, Q4f16) else DeviceSelection(Wasm, Q4))
  {
    if requested != AutoDevice && requested != Best then
      DeviceSelection(requested, if requested == Wasm then Q4 else Q4f16)
    else if probe == AdapterFound then DeviceSelection(WebGpu, Q4f16)
    else DeviceSelection(Wasm, Q4)
  }

  /** The selection never leaves the choice open: the device handed on is neither `auto` nor `best`. */
  lemma SelectionIsConcrete(requested: Device, probe: GpuProbe)
    ensures SelectBestDevice(requested, probe).device != Best
    ensures SelectBestDevice(requested, probe).device != AutoDevice
  {
  }

  /** An explicit request does not look at the hardware at all. */
  lemma ExplicitIgnoresProbe(requested: Device, p: GpuProbe, q: GpuProbe)
    requires requested != AutoDevice && requested != Best
    ensures SelectBestDevice(requested, p) == SelectBestDevice(requested, q)
  {
  }

  /** `auto` and `best` are the same request, and WASM with `q4` is always the fallback. */
  lemma AutoIsBest(probe: GpuProbe)
    ensures SelectBestDevice(AutoDevice, probe) == SelectBestDevice(Best, probe)
    ensures probe != AdapterFound ==> SelectBestDevice(Best, probe) == DeviceSelection(Wasm, Q4)
  {
  }

  /** WebGPU is chosen for an open request exactly when an adapter was found. */
  lemma WebGpuIffAdapter(requested: Device, probe: GpuProbe)
    requires requested == AutoDevice || requested == Best
    ensures SelectBestDevice(requested, probe).device == WebGpu <==> probe == AdapterFound
  {
  }
}
