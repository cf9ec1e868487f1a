/**
  The `CommandProtocol` wrappers of command_messages.py: one method per
  MAV_CMD, each assigning a fixed command code and a positional parameter list
  (its arguments in fixed slots, the literal `0` in reserved slots) and
  handing both to `send_mavlink_command`.

  The wrappers are kept as one table, ordered by MAV_CMD value (numbered as
  in the MAVLink common message set) and cut into parts of sixteen rows; each
  row transcribes a wrapper's `command = ...` and `params = [...]` lines, and
  names the wrapper and its `params` line. A wrapper is identified by its row.
 */
module Catalog {
  import opened Values
  import opened ParamVector
  import Protocol

  const Part0: seq<Wrapper> := [
    Wrapper(16, [Bound, Bound, Bound, Bound, Bound, Bound, Bound]),  // nav_waypoint, command_messages.py:18
    Wrapper(17, [Reserved, Reserved, Bound, Bound, Bound, Bound, Bound]),  // nav_loiter_unlim, command_messages.py:32
    Wrapper(18, [Bound, Bound, Bound, Bound, Bound, Bound, Bound]),  // nav_loiter_turns, command_messages.py:48
    Wrapper(19, [Bound, Bound, Bound, Bound, Bound, Bound, Bound]),  // nav_loiter_time, command_messages.py:64
    Wrapper(20, [Reserved, Reserved, Reserved, Reserved, Reserved, Reserved, Reserved]),  // nav_return_to_launch, command_messages.py:73
    Wrapper(21, [Bound, Bound, Reserved, Bound, Bound, Bound, Bound]),  // nav_land, command_messages.py:88
    Wrapper(22, [Bound, Reserved, Reserved, Bound, Bound, Bound, Bound]),  // nav_takeoff, command_messages.py:102
    Wrapper(23, [Bound, Bound, Bound, Bound, Bound, Bound, Bound]),  // nav_land_local, command_messages.py:118
    Wrapper(24, [Bound, Reserved, Bound, Bound, Bound, Bound, Bound]),  // nav_takeoff_local, command_messages.py:133
    Wrapper(25, [Bound, Bound, Bound, Bound, Bound, Bound, Bound]),  // nav_follow, command_messages.py:149
    Wrapper(30, [Bound, Reserved, Reserved, Reserved, Reserved, Reserved, Bound]),  // nav_continue_and_change_alt, command_messages.py:160
    Wrapper(31, [Bound, Bound, Reserved, Bound, Bound, Bound, Bound]),  // nav_loiter_to_alt, command_messages.py:178
    Wrapper(32, [Bound, Reserved, Reserved, Bound, Bound, Reserved, Bound]),  // do_follow, command_messages.py:192
    Wrapper(33, [Bound, Bound, Bound, Bound, Bound, Bound, Bound]),  // do_follow_reposition, command_messages.py:208
    Wrapper(34, [Bound, Bound, Bound, Bound, Bound, Bound, Bound]),  // do_orbit, command_messages.py:224
    Wrapper(80, [Bound, Bound, Bound, Reserved, Bound, Bound, Bound])  // nav_roi, command_messages.py:239
  ]

  const Part1: seq<Wrapper> := [
    Wrapper(81, [Bound, Bound, Reserved, Bound, Bound, Bound, Bound]),  // nav_pathplanning, command_messages.py:254
    Wrapper(82, [Bound, Reserved, Reserved, Reserved, Bound, Bound, Bound]),  // nav_spline_waypoint, command_messages.py:267
    Wrapper(84, [Reserved, Bound, Reserved, Bound, Bound, Bound, Bound]),  // nav_vtol_takeoff, command_messages.py:281
    Wrapper(85, [Bound, Reserved, Bound, Bound, Bound, Bound, Bound]),  // nav_vtol_land, command_messages.py:296
    Wrapper(92, [Bound, Reserved, Reserved, Reserved, Reserved, Reserved, Reserved]),  // nav_guided_enable, command_messages.py:306
    Wrapper(93, [Bound, Bound, Bound, Bound, Reserved, Reserved, Reserved]),  // nav_delay, command_messages.py:319
    Wrapper(94, [Bound, Reserved, Reserved, Reserved, Bound, Bound, Bound]),  // nav_payload_place, command_messages.py:332
    Wrapper(95, [Reserved, Reserved, Reserved, Reserved, Reserved, Reserved, Reserved]),  // nav_last, command_messages.py:341
    Wrapper(112, [Bound, Reserved, Reserved, Reserved, Reserved, Reserved, Reserved]),  // condition_delay, command_messages.py:351
    Wrapper(113, [Bound, Reserved, Reserved, Reserved, Reserved, Reserved, Bound]),  // condition_change_alt, command_messages.py:362
    Wrapper(114, [Bound, Reserved, Reserved, Reserved, Reserved, Reserved, Reserved]),  // condition_distance, command_messages.py:372
    Wrapper(115, [Bound, Bound, Bound, Bound, Reserved, Reserved, Reserved]),  // condition_yaw, command_messages.py:385
    Wrapper(159, [Reserved, Reserved, Reserved, Reserved, Reserved, Reserved, Reserved]),  // condition_last, command_messages.py:394
    Wrapper(176, [Bound, Bound, Bound, Reserved, Reserved, Reserved, Reserved]),  // do_set_mode, command_messages.py:406
    Wrapper(177, [Bound, Bound, Reserved, Reserved, Reserved, Reserved, Reserved]),  // do_jump, command_messages.py:417
    Wrapper(178, [Bound, Bound, Bound, Reserved, Reserved, Reserved, Reserved])  // do_change_speed, command_messages.py:429
  ]

  const Part2: seq<Wrapper> := [
    Wrapper(179, [Bound, Reserved, Reserved, Bound, Bound, Bound, Bound]),  // do_set_home, command_messages.py:443
    Wrapper(180, [Bound, Bound, Reserved, Reserved, Reserved, Reserved, Reserved]),  // do_set_parameter, command_messages.py:454
    Wrapper(181, [Bound, Bound, Reserved, Reserved, Reserved, Reserved, Reserved]),  // do_set_relay, command_messages.py:465
    Wrapper(182, [Bound, Bound, Bound, Reserved, Reserved, Reserved, Reserved]),  // do_repeat_relay, command_messages.py:477
    Wrapper(183, [Bound, Bound, Reserved, Reserved, Reserved, Reserved, Reserved]),  // do_set_servo, command_messages.py:488
    Wrapper(184, [Bound, Bound, Bound, Bound, Reserved, Reserved, Reserved]),  // do_repeat_servo, command_messages.py:501
    Wrapper(185, [Bound, Reserved, Reserved, Reserved, Reserved, Reserved, Reserved]),  // do_flighttermination, command_messages.py:511
    Wrapper(186, [Bound, Bound, Reserved, Reserved, Reserved, Reserved, Reserved]),  // do_change_altitude, command_messages.py:522
    Wrapper(187, [Bound, Bound, Bound, Bound, Bound, Bound, Bound]),  // do_set_actuator, command_messages.py:538
    Wrapper(189, [Reserved, Reserved, Reserved, Reserved, Bound, Bound, Bound]),  // do_land_start, command_messages.py:550
    Wrapper(190, [Bound, Bound, Reserved, Reserved, Reserved, Reserved, Reserved]),  // do_rally_land, command_messages.py:561
    Wrapper(191, [Bound, Reserved, Reserved, Reserved, Reserved, Reserved, Reserved]),  // do_go_around, command_messages.py:571
    Wrapper(192, [Bound, Bound, Bound, Bound, Bound, Bound, Bound]),  // do_reposition, command_messages.py:587
    Wrapper(193, [Bound, Reserved, Reserved, Reserved, Reserved, Reserved, Reserved]),  // do_pause_continue, command_messages.py:597
    Wrapper(194, [Bound, Reserved, Reserved, Reserved, Reserved, Reserved, Reserved]),  // do_set_reverse, command_messages.py:607
    Wrapper(195, [Bound, Reserved, Reserved, Reserved, Bound, Bound, Bound])  // do_set_roi_location, command_messages.py:620
  ]

  const Part3: seq<Wrapper> := [
    Wrapper(196, [Bound, Reserved, Reserved, Reserved, Bound, Bound, Bound]),  // do_set_roi_wpnext_offset, command_messages.py:633
    Wrapper(197, [Bound, Reserved, Reserved, Reserved, Reserved, Reserved, Reserved]),  // do_set_roi_none, command_messages.py:643
    Wrapper(198, [Bound, Bound]),  // do_set_roi_sysid, command_messages.py:654
    Wrapper(200, [Bound, Bound, Bound, Bound, Reserved, Reserved, Reserved]),  // do_control_video, command_messages.py:667
    Wrapper(201, [Bound, Bound, Bound, Reserved, Reserved, Reserved, Reserved]),  // do_set_roi, command_messages.py:679
    Wrapper(202, [Bound, Bound, Bound, Bound, Bound, Bound, Bound]),  // do_digicam_configure, command_messages.py:695
    Wrapper(203, [Bound, Bound, Bound, Bound, Bound, Bound, Bound]),  // do_digicam_control, command_messages.py:711
    Wrapper(204, [Bound, Bound, Bound, Bound, Bound, Bound, Bound]),  // do_mount_configure, command_messages.py:727
    Wrapper(205, [Bound, Bound, Bound, Bound, Bound, Bound, Bound]),  // do_mount_control, command_messages.py:743
    Wrapper(206, [Bound, Bound, Bound, Reserved, Reserved, Reserved, Reserved]),  // do_set_cam_trigg_dist, command_messages.py:755
    Wrapper(207, [Bound, Reserved, Reserved, Reserved, Reserved, Reserved, Reserved]),  // do_fence_enable, command_messages.py:765
    Wrapper(208, [Bound, Reserved, Reserved, Reserved, Reserved, Reserved, Reserved]),  // do_parachute, command_messages.py:775
    Wrapper(209, [Bound, Bound, Bound, Bound, Bound, Bound, Reserved]),  // do_motor_test, command_messages.py:790
    Wrapper(210, [Bound, Reserved, Reserved, Reserved, Reserved, Reserved, Reserved]),  // do_inverted_flight, command_messages.py:800
    Wrapper(211, [Bound, Bound, Reserved, Reserved, Reserved, Reserved, Reserved]),  // do_gripper, command_messages.py:811
    Wrapper(212, [Bound, Bound, Reserved, Reserved, Reserved, Reserved, Reserved])  // do_autotune_enable, command_messages.py:822
  ]

  const Part4: seq<Wrapper> := [
    Wrapper(213, [Bound, Bound, Bound, Reserved, Reserved, Reserved, Reserved]),  // nav_set_yaw_speed, command_messages.py:834
    Wrapper(214, [Bound, Bound, Reserved, Reserved, Reserved, Reserved, Reserved]),  // do_set_cam_trigg_interval, command_messages.py:845
    Wrapper(220, [Bound, Bound, Bound, Bound, Reserved, Reserved, Reserved]),  // do_mount_control_quat, command_messages.py:858
    Wrapper(221, [Bound, Bound, Reserved, Reserved, Reserved, Reserved, Reserved]),  // do_guided_master, command_messages.py:869
    Wrapper(222, [Bound, Bound, Bound, Bound, Reserved, Reserved, Reserved]),  // do_guided_limits, command_messages.py:882
    Wrapper(223, [Bound, Bound, Bound, Reserved, Reserved, Reserved, Reserved]),  // do_engine_control, command_messages.py:894
    Wrapper(224, [Bound, Bound, Reserved, Reserved, Reserved, Reserved, Reserved]),  // do_set_mission_current, command_messages.py:905
    Wrapper(240, [Reserved, Reserved, Reserved, Reserved, Reserved, Reserved, Reserved]),  // do_last, command_messages.py:914
    Wrapper(241, [Bound, Bound, Bound, Bound, Bound, Bound, Bound]),  // preflight_calibration, command_messages.py:930
    Wrapper(242, [Bound, Bound, Bound, Bound, Bound, Bound, Bound]),  // preflight_set_sensor_offsets, command_messages.py:946
    Wrapper(243, [Bound, Reserved, Reserved, Reserved, Reserved, Reserved, Reserved]),  // preflight_uavcan, command_messages.py:956
    Wrapper(245, [Bound, Bound, Bound, Reserved, Reserved, Reserved, Reserved]),  // preflight_storage, command_messages.py:968
    Wrapper(246, [Bound, Bound, Bound, Bound, Reserved, Reserved, Reserved]),  // preflight_reboot_shutdown, command_messages.py:981
    Wrapper(252, [Bound, Bound, Bound, Bound, Bound, Bound, Bound]),  // override_goto, command_messages.py:997
    Wrapper(260, [Bound, Bound, Bound, Bound, Bound, Bound, Reserved]),  // oblique_survey, command_messages.py:1012
    Wrapper(300, [Bound, Bound])  // mission_start, command_messages.py:1023
  ]

  const Part5: seq<Wrapper> := [
    Wrapper(310, [Bound, Bound, Reserved, Reserved, Bound, Reserved, Reserved]),  // actuator_test, command_messages.py:1035
    Wrapper(311, [Bound, Reserved, Reserved, Reserved, Bound, Reserved, Reserved]),  // configure_actuator, command_messages.py:1046
    Wrapper(400, [Bound, Bound]),  // component_arm_disarm, command_messages.py:1057
    Wrapper(401, []),  // run_prearm_checks, command_messages.py:1066
    Wrapper(405, [Bound]),  // illuminator_on_off, command_messages.py:1076
    Wrapper(410, [Reserved, Reserved, Reserved, Reserved, Reserved, Reserved, Reserved]),  // get_home_position, command_messages.py:1085
    Wrapper(420, [Bound, Bound, Bound]),  // inject_failure, command_messages.py:1097
    Wrapper(500, [Bound, Bound]),  // start_rx_pair, command_messages.py:1108
    Wrapper(510, [Bound]),  // get_message_interval, command_messages.py:1118
    Wrapper(511, [Bound, Bound, Bound]),  // set_message_interval, command_messages.py:1130
    Wrapper(512, [Bound, Bound, Bound, Bound, Bound, Bound, Bound]),  // request_message, command_messages.py:1146
    Wrapper(519, [Bound, Reserved]),  // request_protocol_version, command_messages.py:1156
    Wrapper(520, [Bound, Reserved]),  // request_autopilot_capabilities, command_messages.py:1166
    Wrapper(521, [Bound, Reserved]),  // request_camera_information, command_messages.py:1176
    Wrapper(522, [Bound, Reserved]),  // request_camera_settings, command_messages.py:1186
    Wrapper(525, [Bound, Bound, Reserved])  // request_storage_information, command_messages.py:1197
  ]

  const Part6: seq<Wrapper> := [
    Wrapper(526, [Bound, Bound, Bound, Reserved]),  // storage_format, command_messages.py:1209
    Wrapper(527, [Bound, Reserved]),  // request_camera_capture_status, command_messages.py:1219
    Wrapper(528, [Bound, Reserved]),  // request_flight_information, command_messages.py:1229
    Wrapper(529, [Bound, Reserved]),  // reset_camera_settings, command_messages.py:1239
    Wrapper(530, [Reserved, Bound, Reserved, Reserved, Reserved]),  // set_camera_mode, command_messages.py:1249
    Wrapper(531, [Bound, Bound, Reserved, Reserved, Reserved]),  // set_camera_zoom, command_messages.py:1260
    Wrapper(532, [Bound, Bound, Reserved, Reserved, Reserved]),  // set_camera_focus, command_messages.py:1271
    Wrapper(533, [Bound, Bound]),  // set_storage_usage, command_messages.py:1282
    Wrapper(600, [Bound]),  // jump_tag, command_messages.py:1292
    Wrapper(601, [Bound, Bound]),  // do_jump_tag, command_messages.py:1303
    Wrapper(1000, [Bound, Bound, Bound, Bound, Bound, Bound]),  // do_gimbal_manager_pitchyaw, command_messages.py:1318
    Wrapper(1001, [Bound, Bound, Bound, Bound, Bound]),  // do_gimbal_manager_configure, command_messages.py:1332
    Wrapper(2000, [Reserved, Bound, Bound, Bound, Reserved, Reserved, Reserved]),  // image_start_capture, command_messages.py:1344
    Wrapper(2001, [Reserved, Reserved, Reserved, Reserved, Reserved]),  // image_stop_capture, command_messages.py:1353
    Wrapper(2002, [Bound, Reserved, Reserved, Reserved, Reserved]),  // request_camera_image_capture, command_messages.py:1363
    Wrapper(2003, [Bound, Bound, Bound])  // do_trigger_control, command_messages.py:1375
  ]

  const Part7: seq<Wrapper> := [
    Wrapper(2004, [Bound, Bound, Bound]),  // camera_track_point, command_messages.py:1387
    Wrapper(2005, [Bound, Bound, Bound, Bound]),  // camera_track_rectangle, command_messages.py:1400
    Wrapper(2010, []),  // camera_stop_tracking, command_messages.py:1409
    Wrapper(2500, [Bound, Bound, Reserved, Reserved, Reserved, Reserved, Reserved]),  // video_start_capture, command_messages.py:1420
    Wrapper(2501, [Bound, Reserved, Reserved, Reserved, Reserved, Reserved, Reserved]),  // video_stop_capture, command_messages.py:1430
    Wrapper(2502, [Bound]),  // video_start_streaming, command_messages.py:1440
    Wrapper(2503, [Bound]),  // video_stop_streaming, command_messages.py:1450
    Wrapper(2504, [Bound]),  // request_video_stream_information, command_messages.py:1460
    Wrapper(2505, [Bound]),  // request_video_stream_status, command_messages.py:1470
    Wrapper(2510, [Bound, Reserved, Reserved, Reserved, Reserved, Reserved, Reserved]),  // logging_start, command_messages.py:1480
    Wrapper(2511, [Reserved, Reserved, Reserved, Reserved, Reserved, Reserved, Reserved]),  // logging_stop, command_messages.py:1489
    Wrapper(2520, [Bound, Bound, Reserved, Reserved, Reserved, Reserved, Reserved]),  // airframe_configuration, command_messages.py:1500
    Wrapper(2600, [Bound, Reserved, Reserved, Reserved, Reserved, Reserved, Reserved]),  // control_high_latency, command_messages.py:1510
    Wrapper(2800, [Bound, Bound, Bound, Bound]),  // panorama_create, command_messages.py:1523
    Wrapper(3000, [Bound, Bound]),  // do_vtol_transition, command_messages.py:1534
    Wrapper(3001, [Bound])  // arm_authorization_request, command_messages.py:1544
  ]

  const Part8: seq<Wrapper> := [
    Wrapper(4000, []),  // set_guided_submode_standard, command_messages.py:1553
    Wrapper(4001, [Bound, Reserved, Reserved, Reserved, Bound, Bound]),  // set_guided_submode_circle, command_messages.py:1565
    Wrapper(4501, [Bound, Bound, Reserved, Reserved, Bound, Bound, Bound]),  // condition_gate, command_messages.py:1579
    Wrapper(5000, [Reserved, Reserved, Reserved, Reserved, Bound, Bound, Bound]),  // nav_fence_return_point, command_messages.py:1591
    Wrapper(5001, [Bound, Bound, Reserved, Reserved, Bound, Bound, Reserved]),  // nav_fence_polygon_vertex_inclusion, command_messages.py:1604
    Wrapper(5002, [Bound, Reserved, Reserved, Reserved, Bound, Bound, Reserved]),  // nav_fence_polygon_vertex_exclusion, command_messages.py:1616
    Wrapper(5003, [Bound, Bound, Reserved, Reserved, Bound, Bound, Reserved]),  // nav_fence_circle_inclusion, command_messages.py:1629
    Wrapper(5004, [Bound, Reserved, Reserved, Reserved, Bound, Bound, Reserved]),  // nav_fence_circle_exclusion, command_messages.py:1641
    Wrapper(5100, [Reserved, Reserved, Reserved, Reserved, Bound, Bound, Bound]),  // nav_rally_point, command_messages.py:1653
    Wrapper(5200, [Reserved, Reserved, Reserved, Reserved, Reserved, Reserved, Reserved]),  // uavcan_get_node_info, command_messages.py:1662
    Wrapper(10001, [Reserved, Reserved, Reserved, Reserved, Reserved, Reserved, Reserved]),  // do_adsb_out_ident, command_messages.py:1671
    Wrapper(30001, [Bound, Bound, Bound, Bound, Bound, Bound, Bound]),  // payload_prepare_deploy, command_messages.py:1687
    Wrapper(30002, [Bound, Reserved, Reserved, Reserved, Reserved, Reserved, Reserved]),  // payload_control_deploy, command_messages.py:1697
    Wrapper(31000, [Reserved, Reserved, Reserved, Reserved, Bound, Bound, Bound]),  // waypoint_user_1, command_messages.py:1735
    Wrapper(31001, [Reserved, Reserved, Reserved, Reserved, Bound, Bound, Bound]),  // waypoint_user_2, command_messages.py:1747
    Wrapper(31002, [Reserved, Reserved, Reserved, Reserved, Bound, Bound, Bound])  // waypoint_user_3, command_messages.py:1759
  ]

  const Part9: seq<Wrapper> := [
    Wrapper(31003, [Reserved, Reserved, Reserved, Reserved, Bound, Bound, Bound]),  // waypoint_user_4, command_messages.py:1771
    Wrapper(31004, [Reserved, Reserved, Reserved, Reserved, Bound, Bound, Bound]),  // waypoint_user_5, command_messages.py:1783
    Wrapper(31005, [Reserved, Reserved, Reserved, Reserved, Bound, Bound, Bound]),  // spatial_user_1, command_messages.py:1795
    Wrapper(31006, [Reserved, Reserved, Reserved, Reserved, Bound, Bound, Bound]),  // spatial_user_2, command_messages.py:1807
    Wrapper(31007, [Reserved, Reserved, Reserved, Reserved, Bound, Bound, Bound]),  // spatial_user_3, command_messages.py:1819
    Wrapper(31008, [Reserved, Reserved, Reserved, Reserved, Bound, Bound, Bound]),  // spatial_user_4, command_messages.py:1831
    Wrapper(31009, [Reserved, Reserved, Reserved, Reserved, Bound, Bound, Bound]),  // spatial_user_5, command_messages.py:1843
    Wrapper(31010, [Reserved, Reserved, Reserved, Reserved, Reserved, Reserved, Reserved]),  // user_1, command_messages.py:1852
    Wrapper(31011, [Reserved, Reserved, Reserved, Reserved, Reserved, Reserved, Reserved]),  // user_2, command_messages.py:1861
    Wrapper(31012, [Reserved, Reserved, Reserved, Reserved, Reserved, Reserved, Reserved]),  // user_3, command_messages.py:1870
    Wrapper(31013, [Reserved, Reserved, Reserved, Reserved, Reserved, Reserved, Reserved]),  // user_4, command_messages.py:1879
    Wrapper(31014, [Reserved, Reserved, Reserved, Reserved, Reserved, Reserved, Reserved]),  // user_5, command_messages.py:1888
    Wrapper(32000, [Bound, Reserved, Reserved, Reserved, Reserved, Reserved, Reserved]),  // can_forward, command_messages.py:1898
    Wrapper(42006, [Bound, Bound, Bound, Bound, Reserved, Reserved, Reserved]),  // fixed_mag_cal_yaw, command_messages.py:1710
    Wrapper(42600, [Bound, Bound, Bound, Bound, Reserved, Reserved, Reserved])  // do_winch, command_messages.py:1723
  ]

  const Table: seq<Wrapper> := Part0 + Part1 + Part2 + Part3 + Part4 + Part5 + Part6 + Part7 + Part8 + Part9

  /** A wrapper method, identified by its row of `Table`. */
  type Cmd = i: int | 0 <= i < 159

  // The row of each wrapper, named after its method.
  const NavWaypoint: Cmd := 0
  const NavLoiterUnlim: Cmd := 1
  const NavLoiterTurns: Cmd := 2
  const NavLoiterTime: Cmd := 3
  const NavReturnToLaunch: Cmd := 4
  const NavLand: Cmd := 5
  const NavTakeoff: Cmd := 6
  const NavLandLocal: Cmd := 7
  const NavTakeoffLocal: Cmd := 8
  const NavFollow: Cmd := 9
  const NavContinueAndChangeAlt: Cmd := 10
  const NavLoiterToAlt: Cmd := 11
  const DoFollow: Cmd := 12
  const DoFollowReposition: Cmd := 13
  const DoOrbit: Cmd := 14
  const NavRoi: Cmd := 15
  const NavPathplanning: Cmd := 16
  const NavSplineWaypoint: Cmd := 17
  const NavVtolTakeoff: Cmd := 18
  const NavVtolLand: Cmd := 19
  const NavGuidedEnable: Cmd := 20
  const NavDelay: Cmd := 21
  const NavPayloadPlace: Cmd := 22
  const NavLast: Cmd := 23
  const ConditionDelay: Cmd := 24
  const ConditionChangeAlt: Cmd := 25
  const ConditionDistance: Cmd := 26
  const ConditionYaw: Cmd := 27
  const ConditionLast: Cmd := 28
  const DoSetMode: Cmd := 29
  const DoJump: Cmd := 30
  const DoChangeSpeed: Cmd := 31
  const DoSetHome: Cmd := 32
  const DoSetParameter: Cmd := 33
  const DoSetRelay: Cmd := 34
  const DoRepeatRelay: Cmd := 35
  const DoSetServo: Cmd := 36
  const DoRepeatServo: Cmd := 37
  const DoFlighttermination: Cmd := 38
  const DoChangeAltitude: Cmd := 39
  const DoSetActuator: Cmd := 40
  const DoLandStart: Cmd := 41
  const DoRallyLand: Cmd := 42
  const DoGoAround: Cmd := 43
  const DoReposition: Cmd := 44
  const DoPauseContinue: Cmd := 45
  const DoSetReverse: Cmd := 46
  const DoSetRoiLocation: Cmd := 47
  const DoSetRoiWpnextOffset: Cmd := 48
  const DoSetRoiNone: Cmd := 49
  const DoSetRoiSysid: Cmd := 50
  const DoControlVideo: Cmd := 51
  const DoSetRoi: Cmd := 52
  const DoDigicamConfigure: Cmd := 53
  const DoDigicamControl: Cmd := 54
  const DoMountConfigure: Cmd := 55
  const DoMountControl: Cmd := 56
  const DoSetCamTriggDist: Cmd := 57
  const DoFenceEnable: Cmd := 58
  const DoParachute: Cmd := 59
  const DoMotorTest: Cmd := 60
  const DoInvertedFlight: Cmd := 61
  const DoGripper: Cmd := 62
  const DoAutotuneEnable: Cmd := 63
  const NavSetYawSpeed: Cmd := 64
  const DoSetCamTriggInterval: Cmd := 65
  const DoMountControlQuat: Cmd := 66
  const DoGuidedMaster: Cmd := 67
  const DoGuidedLimits: Cmd := 68
  const DoEngineControl: Cmd := 69
  const DoSetMissionCurrent: Cmd := 70
  const DoLast: Cmd := 71
  const PreflightCalibration: Cmd := 72
  const PreflightSetSensorOffsets: Cmd := 73
  const PreflightUavcan: Cmd := 74
  const PreflightStorage: Cmd := 75
  const PreflightRebootShutdown: Cmd := 76
  const OverrideGoto: Cmd := 77
  const ObliqueSurvey: Cmd := 78
  const MissionStart: Cmd := 79
  const ActuatorTest: Cmd := 80
  const ConfigureActuator: Cmd := 81
  const ComponentArmDisarm: Cmd := 82
  const RunPrearmChecks: Cmd := 83
  const IlluminatorOnOff: Cmd := 84
  const GetHomePosition: Cmd := 85
  const InjectFailure: Cmd := 86
  const StartRxPair: Cmd := 87
  const GetMessageInterval: Cmd := 88
  const SetMessageInterval: Cmd := 89
  const RequestMessage: Cmd := 90
  const RequestProtocolVersion: Cmd := 91
  const RequestAutopilotCapabilities: Cmd := 92
  const RequestCameraInformation: Cmd := 93
  const RequestCameraSettings: Cmd := 94
  const RequestStorageInformation: Cmd := 95
  const StorageFormat: Cmd := 96
  const RequestCameraCaptureStatus: Cmd := 97
  const RequestFlightInformation: Cmd := 98
  const ResetCameraSettings: Cmd := 99
  const SetCameraMode: Cmd := 100
  const SetCameraZoom: Cmd := 101
  const SetCameraFocus: Cmd := 102
  const SetStorageUsage: Cmd := 103
  const JumpTag: Cmd := 104
  const DoJumpTag: Cmd := 105
  const DoGimbalManagerPitchyaw: Cmd := 106
  const DoGimbalManagerConfigure: Cmd := 107
  const ImageStartCapture: Cmd := 108
  const ImageStopCapture: Cmd := 109
  const RequestCameraImageCapture: Cmd := 110
  const DoTriggerControl: Cmd := 111
  const CameraTrackPoint: Cmd := 112
  const CameraTrackRectangle: Cmd := 113
  const CameraStopTracking: Cmd := 114
  const VideoStartCapture: Cmd := 115
  const VideoStopCapture: Cmd := 116
  const VideoStartStreaming: Cmd := 117
  const VideoStopStreaming: Cmd := 118
  const RequestVideoStreamInformation: Cmd := 119
  const RequestVideoStreamStatus: Cmd := 120
  const LoggingStart: Cmd := 121
  const LoggingStop: Cmd := 122
  const AirframeConfiguration: Cmd := 123
  const ControlHighLatency: Cmd := 124
  const PanoramaCreate: Cmd := 125
  const DoVtolTransition: Cmd := 126
  const ArmAuthorizationRequest: Cmd := 127
  const SetGuidedSubmodeStandard: Cmd := 128
  const SetGuidedSubmodeCircle: Cmd := 129
  const ConditionGate: Cmd := 130
  const NavFenceReturnPoint: Cmd := 131
  const NavFencePolygonVertexInclusion: Cmd := 132
  const NavFencePolygonVertexExclusion: Cmd := 133
  const NavFenceCircleInclusion: Cmd := 134
  const NavFenceCircleExclusion: Cmd := 135
  const NavRallyPoint: Cmd := 136
  const UavcanGetNodeInfo: Cmd := 137
  const DoAdsbOutIdent: Cmd := 138
  const PayloadPrepareDeploy: Cmd := 139
  const PayloadControlDeploy: Cmd := 140
  const WaypointUser1: Cmd := 141
  const WaypointUser2: Cmd := 142
  const WaypointUser3: Cmd := 143
  const WaypointUser4: Cmd := 144
  const WaypointUser5: Cmd := 145
  const SpatialUser1: Cmd := 146
  const SpatialUser2: Cmd := 147
  const SpatialUser3: Cmd := 148
  const SpatialUser4: Cmd := 149
  const SpatialUser5: Cmd := 150
  const User1: Cmd := 151
  const User2: Cmd := 152
  const User3: Cmd := 153
  const User4: Cmd := 154
  const User5: Cmd := 155
  const CanForward: Cmd := 156
  const FixedMagCalYaw: Cmd := 157
  const DoWinch: Cmd := 158

  predicate Increasing(t: seq<Wrapper>) {
    forall i :: 0 <= i < |t| - 1 ==> t[i].code < t[i + 1].code
  }

  predicate FitsFrame(t: seq<Wrapper>) {
    forall i :: 0 <= i < |t| ==> |t[i].layout| <= 7
  }

  lemma FitsAppend(a: seq<Wrapper>, b: seq<Wrapper>)
    requires FitsFrame(a) && FitsFrame(b)
    ensures FitsFrame(a + b)
  {
    assert forall i :: |a| <= i < |a + b| ==> (a + b)[i] == b[i - |a|];
  }

  /** Two increasing runs joined where the first ends below the second's start. */
  lemma IncreasingAppend(a: seq<Wrapper>, b: seq<Wrapper>)
    requires Increasing(a) && Increasing(b)
    requires a != [] && b != [] && a[|a| - 1].code < b[0].code
    ensures Increasing(a + b)
  {
    forall i | 0 <= i < |a + b| - 1
      ensures (a + b)[i].code < (a + b)[i + 1].code
    {
      if i == |a| - 1 {
      } else if i < |a| {
        assert (a + b)[i + 1] == a[i + 1];
      } else {
        assert (a + b)[i + 1] == b[i + 1 - |a|];
      }
    }
  }

  /** Increasing between neighbours means increasing between any two rows. */
  lemma {:induction false} IncreasingStrict(t: seq<Wrapper>, i: int, j: int)
    requires Increasing(t) && 0 <= i < j < |t|
    ensures t[i].code < t[j].code
    decreases j - i
  {
    if i + 1 < j {
      IncreasingStrict(t, i + 1, j);
    }
  }

  lemma Part0InOrder()
    ensures Increasing(Part0) && FitsFrame(Part0)
  {
  }

  lemma Part1InOrder()
    ensures Increasing(Part1) && FitsFrame(Part1)
  {
  }

  lemma Part2InOrder()
    ensures Increasing(Part2) && FitsFrame(Part2)
  {
  }

  lemma Part3InOrder()
    ensures Increasing(Part3) && FitsFrame(Part3)
  {
  }

  lemma Part4InOrder()
    ensures Increasing(Part4) && FitsFrame(Part4)
  {
  }

  lemma Part5InOrder()
    ensures Increasing(Part5) && FitsFrame(Part5)
  {
  }

  lemma Part6InOrder()
    ensures Increasing(Part6) && FitsFrame(Part6)
  {
  }

  lemma Part7InOrder()
    ensures Increasing(Part7) && FitsFrame(Part7)
  {
  }

  lemma Part8InOrder()
    ensures Increasing(Part8) && FitsFrame(Part8)
  {
  }

  lemma Part9InOrder()
    ensures Increasing(Part9) && FitsFrame(Part9)
  {
  }

  /** The whole table: one row per wrapper, strictly increasing codes, and no
      row longer than a command frame. */
  lemma TableInOrder()
    ensures |Table| == 159 && Increasing(Table) && FitsFrame(Table)
  {
    Part0InOrder();
    var t := Part0;
    Part1InOrder();
    IncreasingAppend(t, Part1);
    FitsAppend(t, Part1);
    t := t + Part1;
    Part2InOrder();
    IncreasingAppend(t, Part2);
    FitsAppend(t, Part2);
    t := t + Part2;
    Part3InOrder();
    IncreasingAppend(t, Part3);
    FitsAppend(t, Part3);
    t := t + Part3;
    Part4InOrder();
    IncreasingAppend(t, Part4);
    FitsAppend(t, Part4);
    t := t + Part4;
    Part5InOrder();
    IncreasingAppend(t, Part5);
    FitsAppend(t, Part5);
    t := t + Part5;
    Part6InOrder();
    IncreasingAppend(t, Part6);
    FitsAppend(t, Part6);
    t := t + Part6;
    Part7InOrder();
    IncreasingAppend(t, Part7);
    FitsAppend(t, Part7);
    t := t + Part7;
    Part8InOrder();
    IncreasingAppend(t, Part8);
    FitsAppend(t, Part8);
    t := t + Part8;
    Part9InOrder();
    IncreasingAppend(t, Part9);
    FitsAppend(t, Part9);
    t := t + Part9;
    assert t == Table;
  }

  /** The wrapper method in row `c`. */
  function WrapperOf(c: Cmd): (w: Wrapper)
    ensures |w.layout| <= 7
  {
    TableInOrder();
    Table[c]
  }

  /** The MAV_CMD value the wrapper sends. */
  function Code(c: Cmd): nat {
    WrapperOf(c).code
  }

  /** No two wrappers send the same MAV_CMD value. */
  lemma CodesDistinct(a: Cmd, b: Cmd)
    ensures Code(a) == Code(b) <==> a == b
  {
    TableInOrder();
    if a < b {
      IncreasingStrict(Table, a, b);
    } else if b < a {
      IncreasingStrict(Table, b, a);
    }
  }

  function FindCode(n: int, from: nat): (r: Option<Cmd>)
    requires from <= 159
    ensures r.Some? ==> from <= r.value && Code(r.value) == n
    ensures r.None? ==> forall c: Cmd :: from <= c ==> Code(c) != n
    decreases 159 - from
  {
    if from == 159 then None
    else if Code(from) == n then Some(from)
    else FindCode(n, from + 1)
  }

  /** The wrapper that sends MAV_CMD value `n`, if any does. */
  function FromCode(n: int): (r: Option<Cmd>)
    ensures r.Some? ==> Code(r.value) == n
    ensures r.None? <==> forall c: Cmd :: Code(c) != n
  {
    FindCode(n, 0)
  }

  /** Each wrapper is found again from the code it sends. */
  lemma CodeRoundTrip(c: Cmd)
    ensures FromCode(Code(c)) == Some(c)
  {
    CodesDistinct(FromCode(Code(c)).value, c);
  }

  // ---------------------------------------------------------------------------
  // Individual wrappers

  lemma TakeoffFill(pitch: ParamValue, yaw: ParamValue, lat: ParamValue, lon: ParamValue, alt: ParamValue)
    ensures BoundCount([Bound, Reserved, Reserved, Bound, Bound, Bound, Bound]) == 5
    ensures Fill([Bound, Reserved, Reserved, Bound, Bound, Bound, Bound], [pitch, yaw, lat, lon, alt])
            == [pitch, Zero, Zero, yaw, lat, lon, alt]
  {
    FillBound([], alt, []);
    FillBound([Bound], lon, [alt]);
    FillBound([Bound, Bound], lat, [lon, alt]);
    FillBound([Bound, Bound, Bound], yaw, [lat, lon, alt]);
    FillReserved([Bound, Bound, Bound, Bound], [yaw, lat, lon, alt]);
    FillReserved([Reserved, Bound, Bound, Bound, Bound], [yaw, lat, lon, alt]);
    FillBound([Reserved, Reserved, Bound, Bound, Bound, Bound], pitch, [yaw, lat, lon, alt]);
  }

  /** Takeoff's `params` line places pitch, yaw, latitude, longitude and
      altitude in slots 1, 4, 5, 6 and 7 and zeros in slots 2 and 3. */
  lemma TakeoffBuild(pitch: ParamValue, yaw: ParamValue, lat: ParamValue, lon: ParamValue, alt: ParamValue)
    ensures Build(WrapperOf(NavTakeoff), [pitch, yaw, lat, lon, alt])
            == Success([pitch, Zero, Zero, yaw, lat, lon, alt])
  {
    assert WrapperOf(NavTakeoff) == Wrapper(22, [Bound, Reserved, Reserved, Bound, Bound, Bound, Bound]);
    TakeoffFill(pitch, yaw, lat, lon, alt);
  }

  /** With float pitch, yaw NaN, and float position, takeoff goes out as
      COMMAND_LONG for MAV_CMD_NAV_TAKEOFF (22) carrying exactly those values. */
  lemma TakeoffScenario(frame: int)
    ensures var pitch, lat, lon, alt := FloatV(Float(0x4014_0000_0000_0000)), FloatV(Float(0x4047_8000_0000_0000)),
                                        FloatV(Float(0x4020_0000_0000_0000)), FloatV(Float(0x4049_0000_0000_0000));
            Issue(WrapperOf(NavTakeoff), [pitch, FloatV(NaN), lat, lon, alt], frame)
            == Success(Protocol.CommandLong(1, 1, 22, 0, [pitch, IntV(0), IntV(0), FloatV(NaN), lat, lon, alt]))
  {
    var pitch, lat, lon, alt := FloatV(Float(0x4014_0000_0000_0000)), FloatV(Float(0x4047_8000_0000_0000)),
                                FloatV(Float(0x4020_0000_0000_0000)), FloatV(Float(0x4049_0000_0000_0000));
    TakeoffBuild(pitch, FloatV(NaN), lat, lon, alt);
  }

  /** Reserved slots (1-based) as the wrappers write them: takeoff 2 and 3,
      land 3, actuator test 3, 4, 6 and 7. */
  lemma ReservedSlotExamples()
    ensures WrapperOf(NavTakeoff).layout[1] == Reserved && WrapperOf(NavTakeoff).layout[2] == Reserved
    ensures WrapperOf(NavLand).layout[2] == Reserved
    ensures forall i :: i in [2, 3, 5, 6] ==> WrapperOf(ActuatorTest).layout[i] == Reserved
  {
  }

  /** The fence-vertex and fence-circle wrappers write a literal 0 in slot 7,
      so once sent they always go out as COMMAND_INT with the caller's frame. */
  lemma FencesGoOutAsInt(c: Cmd, args: seq<ParamValue>, frame: int)
    requires c in [NavFencePolygonVertexInclusion, NavFencePolygonVertexExclusion,
                   NavFenceCircleInclusion, NavFenceCircleExclusion]
    requires |args| == Arity(WrapperOf(c))
    ensures Issue(WrapperOf(c), args, frame).Success?
    ensures Issue(WrapperOf(c), args, frame).value.CommandInt?
    ensures Issue(WrapperOf(c), args, frame).value.frame == frame
  {
    ReservedSlot7ForcesIntForm(WrapperOf(c), args, frame);
  }

  lemma PairFill(a: ParamValue, b: ParamValue)
    ensures BoundCount([Bound, Bound]) == 2 && Fill([Bound, Bound], [a, b]) == [a, b]
  {
    FillBound([], b, []);
    FillBound([Bound], a, [b]);
  }

  /** `component_arm_disarm(arm, force)` builds a two-slot list, so even with
      the frame supplied it never reaches the wire; padded, it goes out as
      COMMAND_INT for MAV_CMD_COMPONENT_ARM_DISARM (400) with both values. */
  lemma ArmDisarmNeverSent(arm: ParamValue, force: ParamValue, frame: int)
    ensures Issue(WrapperOf(ComponentArmDisarm), [arm, force], frame) == Failure(IndexError)
    ensures IssuePadded(WrapperOf(ComponentArmDisarm), [arm, force], frame)
            == Success(Protocol.CommandInt(1, 1, frame, 400, 0, 0, [arm, force, Zero, Zero, Zero, Zero, Zero]))
  {
    var w := WrapperOf(ComponentArmDisarm);
    assert w == Wrapper(400, [Bound, Bound]);
    PairFill(arm, force);
    assert PadToSeven([arm, force]) == [arm, force, Zero, Zero, Zero, Zero, Zero];
  }

  lemma SevenReservedFill()
    ensures BoundCount([Reserved, Reserved, Reserved, Reserved, Reserved, Reserved, Reserved]) == 0
    ensures Fill([Reserved, Reserved, Reserved, Reserved, Reserved, Reserved, Reserved], [])
            == [Zero, Zero, Zero, Zero, Zero, Zero, Zero]
  {
    var l := [Reserved, Reserved, Reserved, Reserved, Reserved, Reserved, Reserved];
    NoArgumentsAllReserved(l);
    assert Fill(l, []) == [Zero, Zero, Zero, Zero, Zero, Zero, Zero];
  }

  /** The argumentless wrappers that send seven integer zeros: return to
      launch, NAV_LAST, logging stop and UAVCAN node info. */
  lemma SevenZeroWrappers(c: Cmd)
    requires c in [NavReturnToLaunch, NavLast, LoggingStop, UavcanGetNodeInfo]
    ensures Arity(WrapperOf(c)) == 0
    ensures Build(WrapperOf(c), []) == Success([Zero, Zero, Zero, Zero, Zero, Zero, Zero])
  {
    var l := [Reserved, Reserved, Reserved, Reserved, Reserved, Reserved, Reserved];
    if c == NavReturnToLaunch {
      assert WrapperOf(c) == Wrapper(20, l);
    } else if c == NavLast {
      assert WrapperOf(c) == Wrapper(95, l);
    } else if c == LoggingStop {
      assert WrapperOf(c) == Wrapper(2511, l);
    } else {
      assert WrapperOf(c) == Wrapper(5200, l);
    }
    SevenReservedFill();
  }

  /** The pre-arm check takes no argument and builds an empty list. */
  lemma PrearmChecksEmpty()
    ensures Arity(WrapperOf(RunPrearmChecks)) == 0 && Build(WrapperOf(RunPrearmChecks), []) == Success([])
  {
    assert WrapperOf(RunPrearmChecks) == Wrapper(401, []);
  }

  /** Waypoint, reposition and orbit bind all seven slots and send their seven
      arguments unchanged, in declaration order. */
  lemma FullyBoundWrappers(c: Cmd, args: seq<ParamValue>)
    requires c in [NavWaypoint, DoOrbit, DoReposition] && |args| == 7
    ensures Build(WrapperOf(c), args) == Success(args)
  {
    var l := [Bound, Bound, Bound, Bound, Bound, Bound, Bound];
    if c == NavWaypoint {
      assert WrapperOf(c) == Wrapper(16, l);
    } else if c == DoOrbit {
      assert WrapperOf(c) == Wrapper(34, l);
    } else {
      assert WrapperOf(c) == Wrapper(192, l);
    }
    FullyBound(WrapperOf(c), args);
  }

  /** The wrappers whose `params` list is shorter than seven entries, among
      them: ROI by system id, arm/disarm, pre-arm checks, camera mode and the
      circle submode. */
  lemma ShortLayouts()
    ensures |WrapperOf(DoSetRoiSysid).layout| == 2 && |WrapperOf(ComponentArmDisarm).layout| == 2
    ensures |WrapperOf(RunPrearmChecks).layout| == 0 && |WrapperOf(SetCameraMode).layout| == 5
    ensures |WrapperOf(SetGuidedSubmodeCircle).layout| == 6
  {
    assert WrapperOf(DoSetRoiSysid).layout == [Bound, Bound];
    assert WrapperOf(ComponentArmDisarm).layout == [Bound, Bound];
    assert WrapperOf(RunPrearmChecks).layout == [];
    assert WrapperOf(SetCameraMode).layout == [Reserved, Bound, Reserved, Reserved, Reserved];
    assert WrapperOf(SetGuidedSubmodeCircle).layout == [Bound, Reserved, Reserved, Reserved, Bound, Bound];
  }

  lemma CircleFill(radius: ParamValue, lat: ParamValue, lon: ParamValue)
    ensures BoundCount([Bound, Reserved, Reserved, Reserved, Bound, Bound]) == 3
    ensures Fill([Bound, Reserved, Reserved, Reserved, Bound, Bound], [radius, lat, lon])
            == [radius, Zero, Zero, Zero, lat, lon]
  {
    FillBound([], lon, []);
    FillBound([Bound], lat, [lon]);
    FillReserved([Bound, Bound], [lat, lon]);
    FillReserved([Reserved, Bound, Bound], [lat, lon]);
    FillReserved([Reserved, Reserved, Bound, Bound], [lat, lon]);
    FillBound([Reserved, Reserved, Reserved, Bound, Bound], radius, [lat, lon]);
  }

  /** The circle submode builds six slots, its longitude last: with the frame
      supplied it raises IndexError exactly when the longitude is a float, and
      otherwise goes out as COMMAND_INT for MAV_CMD_SET_GUIDED_SUBMODE_CIRCLE
      (4001) with the values unchanged. */
  lemma CircleSubmodeNeedsIntLongitude(radius: ParamValue, lat: ParamValue, lon: ParamValue, frame: int)
    ensures Issue(WrapperOf(SetGuidedSubmodeCircle), [radius, lat, lon], frame).Failure? <==> lon.FloatV?
    ensures lon.IntV? ==> Issue(WrapperOf(SetGuidedSubmodeCircle), [radius, lat, lon], frame)
                          == Success(Protocol.CommandInt(1, 1, frame, 4001, 0, 0, [radius, Zero, Zero, Zero, lat, lon]))
  {
    assert WrapperOf(SetGuidedSubmodeCircle) == Wrapper(4001, [Bound, Reserved, Reserved, Reserved, Bound, Bound]);
    CircleFill(radius, lat, lon);
  }
}
