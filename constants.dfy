/** Configuration values of the GUI (frontend/config/constants.py). */
module Constants {

  const DefaultHost: string := "127.0.0.1"
  /** TCP port of the bridge's command receiver. */
  const CmdPort: nat := 8082
  /** TCP port of the bridge's JSON data stream. */
  const DataPort: nat := 8083
  /** Milliseconds between two sampling ticks. */
  const UpdateIntervalMs: nat := 250
  const NumSensors: nat := 7
  const MaxPlotPoints: nat := 20000

  const SensorNames: seq<string> := [
    "GM-NO2 (Nitrogen Dioxide)",
    "GM-C2H5OH (Ethanol)",
    "GM-VOC (Volatile Org)",
    "GM-CO (Carbon Monoxide)",
    "MiCS-CO (Approximation)",
    "MiCS-Ethanol (Approximation)",
    "MiCS-VOC (Approximation)"
  ]

  const PlotColors: seq<string> := [
    "#FF9AA2", "#B5EAD7", "#C7CEEA", "#FFDAC1", "#E2F0CB", "#FFB7B2", "#E0BBE4"
  ]

  const SampleTypes: seq<string> := [
    "Bunga Kenanga", "Bunga Melati", "Bunga Mawar", "Bunga Sedap Malam"
  ]
}
